/**
 * The per-conversation draft table of the prompt area: a list of drafts keyed by conversation id,
 * where the key of a conversation that has no id yet is the sentinel "new_chat".
 */
module Drafts {
  import opened Wrappers
  import opened JsStrings

  datatype Draft = Draft(id: string, content: string, timestamp: int)

  /** The key of a conversation that the backend has not assigned an id to yet. */
  const NewChatKey: string := "new_chat"

  /** `conversationId || "new_chat"`: a missing or empty id falls back to the sentinel. */
  function ChatKey(conversationId: Option<string>): (key: string)
    ensures key != ""
    ensures conversationId.Some? && conversationId.value != "" ==> key == conversationId.value
    ensures conversationId.None? || conversationId.value == "" ==> key == NewChatKey
  {
    if conversationId.Some? && conversationId.value != "" then conversationId.value else NewChatKey
  }

  /** No two drafts share a key. */
  ghost predicate UniqueKeys(drafts: seq<Draft>) {
    forall i, j :: 0 <= i < j < |drafts| ==> drafts[i].id != drafts[j].id
  }

  /** `drafts.findIndex(d => d.id === key)`: the first index holding `key`, or -1. */
  function FindIndex(drafts: seq<Draft>, key: string): (r: int)
    ensures -1 <= r < |drafts|
    ensures r >= 0 ==> drafts[r].id == key && forall j :: 0 <= j < r ==> drafts[j].id != key
    ensures r == -1 <==> forall j :: 0 <= j < |drafts| ==> drafts[j].id != key
  {
    if drafts == [] then -1
    else if drafts[0].id == key then 0
    else
      var r := FindIndex(drafts[1..], key);
      if r < 0 then -1 else r + 1
  }

  /** `drafts.find(d => d.id === key)`: the first draft holding `key`, if any. */
  function FindDraft(drafts: seq<Draft>, key: string): (r: Option<Draft>)
    ensures r.Some? ==> r.value in drafts && r.value.id == key
    ensures r.Some? ==> r == Some(drafts[FindIndex(drafts, key)])
    ensures r.None? <==> forall d :: d in drafts ==> d.id != key
  {
    var i := FindIndex(drafts, key);
    if i >= 0 then Some(drafts[i]) else None
  }

  /** `drafts.filter(d => d.id !== key)`. */
  function RemoveKey(drafts: seq<Draft>, key: string): (r: seq<Draft>)
    ensures |r| <= |drafts|
    ensures forall d :: d in r <==> d in drafts && d.id != key
  {
    if drafts == [] then []
    else if drafts[0].id == key then RemoveKey(drafts[1..], key)
    else [drafts[0]] + RemoveKey(drafts[1..], key)
  }

  /**
   * The state update of the debounced saveDraft, for a save that is not suppressed: blank content
   * removes the key's draft; otherwise a draft stamped `now` replaces the first one with the key in
   * place, or is appended when there is none. The content is stored untrimmed.
   */
  function SavedDrafts(drafts: seq<Draft>, key: string, content: string, now: int): (r: seq<Draft>)
    ensures Blank(content) ==> r == RemoveKey(drafts, key)
    ensures !Blank(content) && FindIndex(drafts, key) >= 0 ==>
      var i := FindIndex(drafts, key);
      |r| == |drafts| && r[i] == Draft(key, content, now) && forall j :: 0 <= j < |r| && j != i ==> r[j] == drafts[j]
    ensures !Blank(content) && FindIndex(drafts, key) < 0 ==> r == drafts + [Draft(key, content, now)]
  {
    TrimEmptyIffBlank(content);
    if Trim(content) == "" then RemoveKey(drafts, key)
    else
      var i := FindIndex(drafts, key);
      if i >= 0 then drafts[i := Draft(key, content, now)] else drafts + [Draft(key, content, now)]
  }

  /** Filtering commutes with concatenation, so the drafts that stay keep their relative order. */
  lemma {:induction false} RemoveKeyAppend(a: seq<Draft>, b: seq<Draft>, key: string)
    ensures RemoveKey(a + b, key) == RemoveKey(a, key) + RemoveKey(b, key)
  {
    if a == [] {
      assert a + b == b;
    } else {
      assert (a + b)[1..] == a[1..] + b;
      RemoveKeyAppend(a[1..], b, key);
    }
  }

  /** Removing a key that no draft holds leaves the list as it is. */
  lemma {:induction false} RemoveKeyAbsent(drafts: seq<Draft>, key: string)
    requires forall d :: d in drafts ==> d.id != key
    ensures RemoveKey(drafts, key) == drafts
  {
    if drafts != [] {
      assert drafts[0] in drafts;
      RemoveKeyAbsent(drafts[1..], key);
    }
  }

  /** With unique keys, removing a key deletes exactly the one draft at its index; the rest keep their order. */
  lemma {:induction false} RemoveKeyAt(drafts: seq<Draft>, key: string, i: nat)
    requires UniqueKeys(drafts)
    requires i < |drafts| && drafts[i].id == key
    ensures RemoveKey(drafts, key) == drafts[..i] + drafts[i + 1..]
  {
    var tail := drafts[1..];
    if i == 0 {
      forall d | d in tail ensures d.id != key {
        var k :| 0 <= k < |tail| && tail[k] == d;
        assert d == drafts[k + 1];
      }
      RemoveKeyAbsent(tail, key);
    } else {
      assert drafts[0].id != drafts[i].id;
      assert UniqueKeys(tail) by {
        forall a, b | 0 <= a < b < |tail| ensures tail[a].id != tail[b].id {
          assert tail[a] == drafts[a + 1] && tail[b] == drafts[b + 1];
        }
      }
      RemoveKeyAt(tail, key, i - 1);
      calc {
        RemoveKey(drafts, key);
        [drafts[0]] + RemoveKey(tail, key);
        [drafts[0]] + (tail[..i - 1] + tail[i..]);
        { assert tail[..i - 1] == drafts[1..i] && tail[i..] == drafts[i + 1..]; }
        [drafts[0]] + (drafts[1..i] + drafts[i + 1..]);
        { assert drafts[..i] == [drafts[0]] + drafts[1..i]; }
        drafts[..i] + drafts[i + 1..];
      }
    }
  }

  /** Removing a key keeps the keys unique. */
  lemma {:induction false} RemoveKeyKeepsUnique(drafts: seq<Draft>, key: string)
    requires UniqueKeys(drafts)
    ensures UniqueKeys(RemoveKey(drafts, key))
  {
    if drafts != [] {
      var rest := RemoveKey(drafts[1..], key);
      RemoveKeyKeepsUnique(drafts[1..], key);
      if drafts[0].id != key {
        var r := [drafts[0]] + rest;
        forall i, j | 0 <= i < j < |r| ensures r[i].id != r[j].id {
          if i == 0 {
            assert r[j] in rest;
            var k :| 0 <= k < |drafts| - 1 && drafts[1..][k] == r[j];
            assert drafts[k + 1] == r[j];
          } else {
            assert r[i] == rest[i - 1] && r[j] == rest[j - 1];
          }
        }
      }
    }
  }

  /** A save keeps the keys unique: at most one draft per conversation. */
  lemma SaveKeepsUnique(drafts: seq<Draft>, key: string, content: string, now: int)
    requires UniqueKeys(drafts)
    ensures UniqueKeys(SavedDrafts(drafts, key, content, now))
  {
    if Blank(content) {
      RemoveKeyKeepsUnique(drafts, key);
    }
  }

  /** Draft round trip: after a save, loading the key yields the saved draft, or nothing when the content was blank. */
  lemma SaveThenFind(drafts: seq<Draft>, key: string, content: string, now: int)
    ensures FindDraft(SavedDrafts(drafts, key, content, now), key)
         == if Blank(content) then None else Some(Draft(key, content, now))
  {
    var r := SavedDrafts(drafts, key, content, now);
    if !Blank(content) {
      var i := FindIndex(drafts, key);
      if i < 0 {
        assert r[|drafts|].id == key;
        assert forall j :: 0 <= j < |drafts| ==> r[j] == drafts[j];
        assert FindIndex(r, key) == |drafts|;
      } else {
        assert forall j :: 0 <= j < i ==> r[j] == drafts[j];
        assert FindIndex(r, key) == i;
      }
    }
  }

  /** A save for one key leaves what every other key loads unchanged. */
  lemma SaveKeepsOtherKeys(drafts: seq<Draft>, key: string, content: string, now: int, other: string)
    requires other != key
    ensures FindDraft(SavedDrafts(drafts, key, content, now), other) == FindDraft(drafts, other)
  {
    var r := SavedDrafts(drafts, key, content, now);
    if Blank(content) {
      RemoveKeyFindOther(drafts, key, other);
    } else {
      var i := FindIndex(drafts, other);
      var p := FindIndex(drafts, key);
      assert |drafts| <= |r|;
      assert forall j :: 0 <= j < |drafts| ==> r[j].id == drafts[j].id;
      assert p < 0 ==> r[|drafts|].id == key;
      if i >= 0 {
        assert FindIndex(r, other) == i;
      } else {
        assert FindIndex(r, other) == -1;
      }
    }
  }

  /** Removing one key leaves what every other key loads unchanged. */
  lemma {:induction false} RemoveKeyFindOther(drafts: seq<Draft>, key: string, other: string)
    requires other != key
    ensures FindDraft(RemoveKey(drafts, key), other) == FindDraft(drafts, other)
  {
    if drafts != [] {
      RemoveKeyFindOther(drafts[1..], key, other);
      var rest := RemoveKey(drafts[1..], key);
      if drafts[0].id == key {
        assert FindIndex(drafts, other) == if FindIndex(drafts[1..], other) < 0 then -1 else FindIndex(drafts[1..], other) + 1;
      } else {
        assert RemoveKey(drafts, key) == [drafts[0]] + rest;
        assert ([drafts[0]] + rest)[1..] == rest;
      }
    }
  }
}
