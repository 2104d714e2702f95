/** The user-story backlog: stories with numbered subtasks, and the CRUD
    operations of the project manager over the stored list. */
module Backlog {
  import opened Wrappers

  datatype Subtask = Subtask(id: int, text: string)

  /** A stored story; `S` is what its subtask list holds. */
  datatype Story<S> = Story(id: int, text: string, subtasks: seq<S>)

  /** The id a new story gets: one more than the last story's, or 1 for an
      empty list. */
  function NextStoryId<S>(stories: seq<Story<S>>): int
  {
    if stories == [] then 1 else stories[|stories| - 1].id + 1
  }

  /** Story ids strictly increase along the list (hence they are unique). */
  ghost predicate IdsIncreasing<S>(stories: seq<Story<S>>)
  {
    forall i, j :: 0 <= i < j < |stories| ==> stories[i].id < stories[j].id
  }

  /** The position of the first story with the given id. */
  function FindStory<S>(stories: seq<Story<S>>, id: int): (r: Option<nat>)
    ensures r.Some? ==>
      && r.value < |stories| && stories[r.value].id == id
      && forall k :: 0 <= k < r.value ==> stories[k].id != id
    ensures r.None? ==> forall k :: 0 <= k < |stories| ==> stories[k].id != id
  {
    if stories == [] then None
    else if stories[0].id == id then Some(0)
    else match FindStory(stories[1..], id)
      case None => None
      case Some(i) => Some(i + 1)
  }

  /** The position of the first subtask with the given id. */
  function FindSubtaskIn(subtasks: seq<Subtask>, id: int): (r: Option<nat>)
    ensures r.Some? ==>
      && r.value < |subtasks| && subtasks[r.value].id == id
      && forall k :: 0 <= k < r.value ==> subtasks[k].id != id
    ensures r.None? ==> forall k :: 0 <= k < |subtasks| ==> subtasks[k].id != id
  {
    if subtasks == [] then None
    else if subtasks[0].id == id then Some(0)
    else match FindSubtaskIn(subtasks[1..], id)
      case None => None
      case Some(i) => Some(i + 1)
  }

  /** A story with id `storyId` that holds a subtask with id `subtaskId`. */
  predicate HasSubtask(story: Story<Subtask>, storyId: int, subtaskId: int)
  {
    story.id == storyId && FindSubtaskIn(story.subtasks, subtaskId).Some?
  }

  /** The story and subtask positions the subtask operations act on: every
      story with the id is searched in turn, so the pair found is the first
      story with that id that holds such a subtask, and its first such
      subtask. */
  function FindSubtask(stories: seq<Story<Subtask>>, storyId: int, subtaskId: int): (r: Option<(nat, nat)>)
    ensures r.Some? ==>
      && r.value.0 < |stories| && HasSubtask(stories[r.value.0], storyId, subtaskId)
      && FindSubtaskIn(stories[r.value.0].subtasks, subtaskId) == Some(r.value.1)
      && forall k :: 0 <= k < r.value.0 ==> !HasSubtask(stories[k], storyId, subtaskId)
    ensures r.None? ==> forall k :: 0 <= k < |stories| ==> !HasSubtask(stories[k], storyId, subtaskId)
  {
    if stories == [] then None
    else if HasSubtask(stories[0], storyId, subtaskId) then
      Some((0, FindSubtaskIn(stories[0].subtasks, subtaskId).value))
    else match FindSubtask(stories[1..], storyId, subtaskId)
      case None => None
      case Some(p) => Some((p.0 + 1, p.1))
  }

  /** The list after `create_user_story`. */
  function AddStory<S>(stories: seq<Story<S>>, text: string): seq<Story<S>>
  {
    stories + [Story(NextStoryId(stories), text, [])]
  }

  /** The list after `update_user_story`. */
  function UpdateStory<S>(stories: seq<Story<S>>, id: int, text: string): seq<Story<S>>
  {
    match FindStory(stories, id)
    case None => stories
    case Some(i) => stories[i := stories[i].(text := text)]
  }

  /** The list after `delete_user_story`. */
  function RemoveStory<S>(stories: seq<Story<S>>, id: int): seq<Story<S>>
  {
    match FindStory(stories, id)
    case None => stories
    case Some(i) => stories[..i] + stories[i + 1..]
  }

  /** The id `create_subtask` gives: one more than the number of subtasks. */
  function NextSubtaskId(subtasks: seq<Subtask>): int
  {
    |subtasks| + 1
  }

  /** The list after `create_subtask`. */
  function AddSubtask(stories: seq<Story<Subtask>>, storyId: int, text: string): seq<Story<Subtask>>
  {
    match FindStory(stories, storyId)
    case None => stories
    case Some(i) =>
      var s := stories[i];
      stories[i := s.(subtasks := s.subtasks + [Subtask(NextSubtaskId(s.subtasks), text)])]
  }

  /** The list after `update_subtask`. */
  function UpdateSubtask(stories: seq<Story<Subtask>>, storyId: int, subtaskId: int, text: string): seq<Story<Subtask>>
  {
    match FindSubtask(stories, storyId, subtaskId)
    case None => stories
    case Some((i, j)) =>
      var s := stories[i];
      stories[i := s.(subtasks := s.subtasks[j := s.subtasks[j].(text := text)])]
  }

  /** The list after `delete_subtask`. */
  function RemoveSubtask(stories: seq<Story<Subtask>>, storyId: int, subtaskId: int): seq<Story<Subtask>>
  {
    match FindSubtask(stories, storyId, subtaskId)
    case None => stories
    case Some((i, j)) =>
      var s := stories[i];
      stories[i := s.(subtasks := s.subtasks[..j] + s.subtasks[j + 1..])]
  }

  /** The new story's id is larger than every id already there, so creating
      a story keeps ids increasing. */
  lemma AddStoryKeepsIdsIncreasing<S>(stories: seq<Story<S>>, text: string)
    requires IdsIncreasing(stories)
    ensures forall k :: 0 <= k < |stories| ==> stories[k].id < NextStoryId(stories)
    ensures IdsIncreasing(AddStory(stories, text))
  {
  }

  /** Updating a story's text keeps every id where it was. */
  lemma UpdateStoryKeepsIds<S>(stories: seq<Story<S>>, id: int, text: string)
    ensures |UpdateStory(stories, id, text)| == |stories|
    ensures forall k :: 0 <= k < |stories| ==> UpdateStory(stories, id, text)[k].id == stories[k].id
    ensures IdsIncreasing(stories) ==> IdsIncreasing(UpdateStory(stories, id, text))
  {
  }

  /** Deleting a story keeps the others in order, so ids stay increasing. */
  lemma RemoveStoryKeepsIdsIncreasing<S>(stories: seq<Story<S>>, id: int)
    requires IdsIncreasing(stories)
    ensures IdsIncreasing(RemoveStory(stories, id))
  {
    match FindStory(stories, id)
    case None =>
    case Some(i) =>
      var rest := stories[..i] + stories[i + 1..];
      forall a, b | 0 <= a < b < |rest|
        ensures rest[a].id < rest[b].id
      {
        var a' := if a < i then a else a + 1;
        var b' := if b < i then b else b + 1;
        assert rest[a] == stories[a'] && rest[b] == stories[b'];
      }
  }

  /** With increasing ids the story with a given id is the only one, and it
      is the one found. */
  lemma FindStoryUnique<S>(stories: seq<Story<S>>, k: nat)
    requires IdsIncreasing(stories)
    requires k < |stories|
    ensures FindStory(stories, stories[k].id) == Some(k)
  {
  }

  /** Reading the id `create_user_story` returned gives back the new story. */
  lemma CreateThenRead<S>(stories: seq<Story<S>>, text: string)
    requires IdsIncreasing(stories)
    ensures var after := AddStory(stories, text);
      FindStory(after, NextStoryId(stories)) == Some(|stories|)
      && after[|stories|] == Story(NextStoryId(stories), text, [])
  {
    AddStoryKeepsIdsIncreasing(stories, text);
    FindStoryUnique(AddStory(stories, text), |stories|);
  }

  /** After a delete, with increasing ids, no story with that id is left and
      every other story is still there, in order. */
  lemma DeleteThenRead<S>(stories: seq<Story<S>>, id: int)
    requires IdsIncreasing(stories)
    ensures FindStory(RemoveStory(stories, id), id).None?
    ensures forall k :: 0 <= k < |stories| && stories[k].id != id ==> stories[k] in RemoveStory(stories, id)
    ensures |RemoveStory(stories, id)| == if FindStory(stories, id).Some? then |stories| - 1 else |stories|
  {
    match FindStory(stories, id)
    case None =>
    case Some(i) =>
      var rest := stories[..i] + stories[i + 1..];
      forall k | 0 <= k < |rest|
        ensures rest[k].id != id
      {
        if k < i {
          assert rest[k] == stories[k];
        } else {
          assert rest[k] == stories[k + 1];
        }
      }
      forall k | 0 <= k < |stories| && stories[k].id != id
        ensures stories[k] in rest
      {
        if k < i {
          assert rest[k] == stories[k];
        } else {
          assert rest[k - 1] == stories[k];
        }
      }
  }

  /** Subtask ids count the subtasks, so after a delete a new subtask can
      take an id that is still in use: two subtasks of one story then share
      an id. */
  lemma SubtaskIdsCanRepeat()
    ensures var before := [Story(1, "story", [Subtask(1, "a"), Subtask(2, "b")])];
      var after := AddSubtask(RemoveSubtask(before, 1, 1), 1, "c");
      after[0].subtasks == [Subtask(2, "b"), Subtask(2, "c")]
  {
    var before := [Story(1, "story", [Subtask(1, "a"), Subtask(2, "b")])];
    assert FindSubtaskIn(before[0].subtasks, 1) == Some(0);
    assert FindSubtask(before, 1, 1) == Some((0, 0));
    var removed := RemoveSubtask(before, 1, 1);
    assert before[0].subtasks[..0] + before[0].subtasks[1..] == [Subtask(2, "b")];
    assert removed == [Story(1, "story", [Subtask(2, "b")])];
    assert FindStory(removed, 1) == Some(0);
  }

  class ProjectManager {
    /** The stories of the user-stories file. */
    var stories: seq<Story<Subtask>>

    /** A manager over the stored stories; a missing file starts empty. */
    constructor (stored: Option<seq<Story<Subtask>>>)
      ensures stories == if stored.Some? then stored.value else []
    {
      stories := if stored.Some? then stored.value else [];
    }

    /** `create_user_story`: appends the new story and returns its id. */
    method CreateUserStory(userStory: string) returns (newId: int)
      modifies this
      ensures newId == NextStoryId(old(stories))
      ensures stories == AddStory(old(stories), userStory)
    {
      newId := if |stories| > 0 then stories[|stories| - 1].id + 1 else 1;
      var newStory := Story(newId, userStory, []);
      stories := stories + [newStory];
    }

    /** `read_user_story`: the first story with the id, or `None`. */
    method ReadUserStory(userStoryId: int) returns (story: Option<Story<Subtask>>)
      ensures story.Some? <==> exists k :: 0 <= k < |stories| && stories[k].id == userStoryId
      ensures story.Some? ==>
        (FindStory(stories, userStoryId).Some? && story.value == stories[FindStory(stories, userStoryId).value])
    {
      for i := 0 to |stories|
        invariant forall k :: 0 <= k < i ==> stories[k].id != userStoryId
      {
        if stories[i].id == userStoryId {
          return Some(stories[i]);
        }
      }
      return None;
    }

    /** `update_user_story`: only the first matching story gets the new text;
        with no match nothing changes and the answer is false. */
    method UpdateUserStory(userStoryId: int, userStory: string) returns (updated: bool)
      modifies this
      ensures updated <==> FindStory(old(stories), userStoryId).Some?
      ensures stories == UpdateStory(old(stories), userStoryId, userStory)
    {
      for i := 0 to |stories|
        invariant forall k :: 0 <= k < i ==> stories[k].id != userStoryId
        invariant stories == old(stories)
      {
        if stories[i].id == userStoryId {
          stories := stories[i := stories[i].(text := userStory)];
          return true;
        }
      }
      return false;
    }

    /** `delete_user_story`: only the first matching story is removed, the
        others keep their order; false when there is none. */
    method DeleteUserStory(userStoryId: int) returns (deleted: bool)
      modifies this
      ensures deleted <==> FindStory(old(stories), userStoryId).Some?
      ensures stories == RemoveStory(old(stories), userStoryId)
    {
      for i := 0 to |stories|
        invariant forall k :: 0 <= k < i ==> stories[k].id != userStoryId
        invariant stories == old(stories)
      {
        if stories[i].id == userStoryId {
          stories := stories[..i] + stories[i + 1..];
          return true;
        }
      }
      return false;
    }

    /** `create_subtask`: appends a subtask numbered one past the count to
        the first matching story and returns that number; `None` if the
        story is missing. */
    method CreateSubtask(userStoryId: int, subtask: string) returns (newId: Option<int>)
      modifies this
      ensures newId.Some? <==> FindStory(old(stories), userStoryId).Some?
      ensures newId.Some? ==>
        newId.value == NextSubtaskId(old(stories)[FindStory(old(stories), userStoryId).value].subtasks)
      ensures stories == AddSubtask(old(stories), userStoryId, subtask)
    {
      for i := 0 to |stories|
        invariant forall k :: 0 <= k < i ==> stories[k].id != userStoryId
        invariant stories == old(stories)
      {
        if stories[i].id == userStoryId {
          var story := stories[i];
          var newSubtaskId := |story.subtasks| + 1;
          stories := stories[i := story.(subtasks := story.subtasks + [Subtask(newSubtaskId, subtask)])];
          return Some(newSubtaskId);
        }
      }
      return None;
    }

    /** The inner search of the subtask operations: the first subtask of a
        story with the id. */
    static method SearchSubtasks(subtasks: seq<Subtask>, subtaskId: int) returns (found: Option<nat>)
      ensures found == FindSubtaskIn(subtasks, subtaskId)
    {
      for j := 0 to |subtasks|
        invariant forall l :: 0 <= l < j ==> subtasks[l].id != subtaskId
      {
        if subtasks[j].id == subtaskId {
          return Some(j);
        }
      }
      return None;
    }

    /** The nested search shared by the subtask operations: stories with the
        id in order, within each its subtasks in order. */
    method Locate(userStoryId: int, subtaskId: int) returns (found: Option<(nat, nat)>)
      ensures found == FindSubtask(stories, userStoryId, subtaskId)
    {
      for i := 0 to |stories|
        invariant forall k :: 0 <= k < i ==> !HasSubtask(stories[k], userStoryId, subtaskId)
      {
        if stories[i].id == userStoryId {
          var j := SearchSubtasks(stories[i].subtasks, subtaskId);
          if j.Some? {
            return Some((i, j.value));
          }
        }
      }
      return None;
    }

    /** `read_subtask`: the subtask found by the nested search, or `None`. */
    method ReadSubtask(userStoryId: int, subtaskId: int) returns (subtask: Option<Subtask>)
      ensures subtask.Some? <==> exists k :: 0 <= k < |stories| && HasSubtask(stories[k], userStoryId, subtaskId)
      ensures subtask.Some? ==> subtask.value.id == subtaskId
      ensures subtask.Some? ==>
        (exists k :: 0 <= k < |stories| && stories[k].id == userStoryId && subtask.value in stories[k].subtasks)
      ensures subtask == match FindSubtask(stories, userStoryId, subtaskId)
        case None => None
        case Some((i, j)) => Some(stories[i].subtasks[j])
    {
      var found := Locate(userStoryId, subtaskId);
      match found {
        case None =>
          return None;
        case Some((i, j)) =>
          return Some(stories[i].subtasks[j]);
      }
    }

    /** `update_subtask`: only the subtask found gets the new text; false and
        no change when no pair matches. */
    method UpdateSubtaskText(userStoryId: int, subtaskId: int, subtask: string) returns (updated: bool)
      modifies this
      ensures updated <==> FindSubtask(old(stories), userStoryId, subtaskId).Some?
      ensures stories == UpdateSubtask(old(stories), userStoryId, subtaskId, subtask)
    {
      var found := Locate(userStoryId, subtaskId);
      match found {
        case None =>
          return false;
        case Some((i, j)) =>
          var story := stories[i];
          stories := stories[i := story.(subtasks := story.subtasks[j := story.subtasks[j].(text := subtask)])];
          return true;
      }
    }

    /** `delete_subtask`: only the subtask found is removed; false and no
        change when no pair matches. */
    method DeleteSubtask(userStoryId: int, subtaskId: int) returns (deleted: bool)
      modifies this
      ensures deleted <==> FindSubtask(old(stories), userStoryId, subtaskId).Some?
      ensures stories == RemoveSubtask(old(stories), userStoryId, subtaskId)
    {
      var found := Locate(userStoryId, subtaskId);
      match found {
        case None =>
          return false;
        case Some((i, j)) =>
          var story := stories[i];
          stories := stories[i := story.(subtasks := story.subtasks[..j] + story.subtasks[j + 1..])];
          return true;
      }
    }
  }
}
