/** The tool functions that record user stories and subtasks in the stories
    file; here the subtask list holds the raw subtask values. */
module StoryTools {
  import opened Wrappers
  import opened Backlog

  /** A story as the tools write it. */
  type ToolStory = Story<string>

  /** The stories the tools start from: a missing or undecodable file counts
      as an empty list. */
  function Load(stored: Option<seq<ToolStory>>): seq<ToolStory>
  {
    if stored.Some? then stored.value else []
  }

  /** The list after `record_subtask` found the story at position `i`: the raw
      value is appended to that story's subtasks and nothing else changes. */
  function WithSubtask(stories: seq<ToolStory>, i: nat, subtask: string): (r: seq<ToolStory>)
    requires i < |stories|
    ensures |r| == |stories|
    ensures r[i].id == stories[i].id && r[i].text == stories[i].text
    ensures r[i].subtasks == stories[i].subtasks + [subtask]
    ensures forall k :: 0 <= k < |stories| && k != i ==> r[k] == stories[k]
  {
    stories[i := stories[i].(subtasks := stories[i].subtasks + [subtask])]
  }

  /** A recorded story reads back under the id the tool returned, provided
      the ids were increasing. */
  lemma RecordedStoryIsFound(stored: Option<seq<ToolStory>>, userStory: string)
    requires IdsIncreasing(Load(stored))
    ensures FindStory(AddStory(Load(stored), userStory), NextStoryId(Load(stored))) == Some(|Load(stored)|)
  {
    CreateThenRead(Load(stored), userStory);
  }

  class StoryFile {
    /** The decoded file, or `None` when it is missing or undecodable. */
    var stored: Option<seq<ToolStory>>

    constructor (stored: Option<seq<ToolStory>>)
      ensures this.stored == stored
    {
      this.stored := stored;
    }

    /** `record_user_story`: appends a story with the next id and no
        subtasks, writes the file and returns the id. */
    method RecordUserStory(userStory: string) returns (newId: int)
      modifies this
      ensures newId == NextStoryId(Load(old(stored)))
      ensures stored == Some(AddStory(Load(old(stored)), userStory))
    {
      var stories := Load(stored);
      newId := if |stories| > 0 then stories[|stories| - 1].id + 1 else 1;
      var newStory := Story(newId, userStory, []);
      stories := stories + [newStory];
      stored := Some(stories);
    }

    /** `record_subtask`: the raw subtask goes to the first story with the id
        and the file is written; an unknown id leaves the file as it was. */
    method RecordSubtask(userStoryId: int, subtask: string)
      modifies this
      ensures match FindStory(Load(old(stored)), userStoryId)
        case None => stored == old(stored)
        case Some(i) => stored == Some(WithSubtask(Load(old(stored)), i, subtask))
    {
      var stories := Load(stored);
      var i := 0;
      while i < |stories|
        invariant 0 <= i <= |stories|
        invariant forall k :: 0 <= k < i ==> stories[k].id != userStoryId
      {
        if stories[i].id == userStoryId {
          stories := stories[i := stories[i].(subtasks := stories[i].subtasks + [subtask])];
          break;
        }
        i := i + 1;
      }
      if i == |stories| {
        return;
      }
      stored := Some(stories);
    }
  }
}
