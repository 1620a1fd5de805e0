/**
 * The chat history of the component: its entries, the two id computations
 * and the two by-id updates that the stream consumer applies to it.
 */
module Messages {
  import opened Wrappers

  /** `'system' | 'user'`: the agent's replies are tagged `system`. */
  datatype MessageType = System | User

  /** One history entry; `streaming` is absent on the user's entries. */
  datatype ChatMessage = ChatMessage(id: int, messageType: MessageType, message: string, streaming: Option<bool>)

  /**
   * `Math.max(acc, ...ids)`: the largest of `acc` and the ids of `h`, taken
   * left to right as `Math.max` scans its arguments.
   */
  function MaxId(acc: int, h: seq<ChatMessage>): (r: int)
    ensures acc <= r
    ensures forall i :: 0 <= i < |h| ==> h[i].id <= r
    ensures r == acc || exists i :: 0 <= i < |h| && h[i].id == r
    decreases |h|
  {
    if h == [] then acc
    else
      var r := MaxId(if h[0].id > acc then h[0].id else acc, h[1..]);
      assert r != acc && r != h[0].id ==> exists i :: 0 <= i < |h| - 1 && h[1..][i].id == r;
      r
  }

  /**
   * The id of a new user entry: one more than the largest id in the history,
   * or 1 on an empty history; larger than every id already there.
   */
  function NextUserId(h: seq<ChatMessage>): (r: int)
    ensures forall i :: 0 <= i < |h| ==> h[i].id < r
    ensures h == [] ==> r == 1
    ensures h != [] ==> exists i :: 0 <= i < |h| && h[i].id == r - 1
  {
    if |h| > 0 then MaxId(h[0].id, h[1..]) + 1 else 1
  }

  /**
   * The id of a new assistant entry: one more than the largest of 0 and the
   * ids in the history; positive and larger than every id already there.
   */
  function NextAssistantId(h: seq<ChatMessage>): (r: int)
    ensures 1 <= r
    ensures forall i :: 0 <= i < |h| ==> h[i].id < r
    ensures r == 1 || exists i :: 0 <= i < |h| && h[i].id == r - 1
  {
    MaxId(0, h) + 1
  }

  /** The history invariant: ids are positive and strictly increase along the history. */
  predicate IdsAscending(h: seq<ChatMessage>) {
    && (forall i :: 0 <= i < |h| ==> 1 <= h[i].id)
    && (forall i, j :: 0 <= i < j < |h| ==> h[i].id < h[j].id)
  }

  /** A history with the same ids, position by position, as an ascending one is ascending. */
  lemma SameIdsKeepAscending(h: seq<ChatMessage>, h': seq<ChatMessage>)
    requires IdsAscending(h)
    requires |h'| == |h| && forall i :: 0 <= i < |h| ==> h'[i].id == h[i].id
    ensures IdsAscending(h')
  {
  }

  /** On a history whose ids are not negative the two id formulas agree. */
  lemma NextIdsAgree(h: seq<ChatMessage>)
    requires forall i :: 0 <= i < |h| ==> 0 <= h[i].id
    ensures NextUserId(h) == NextAssistantId(h)
  {
    if h != [] {
      var u, a := NextUserId(h), NextAssistantId(h);
      var iu :| 0 <= iu < |h| && h[iu].id == u - 1;
      if a != 1 {
        var ia :| 0 <= ia < |h| && h[ia].id == a - 1;
      }
    }
  }

  /** On an ascending history the next id is the last entry's id plus one. */
  lemma NextIdFollowsLast(h: seq<ChatMessage>)
    requires IdsAscending(h)
    ensures NextUserId(h) == if h == [] then 1 else h[|h| - 1].id + 1
    ensures NextAssistantId(h) == NextUserId(h)
  {
    NextIdsAgree(h);
    if h != [] {
      assert forall j :: 0 <= j < |h| ==> h[j].id <= h[|h| - 1].id;
    }
  }

  /** Appending an entry that carries the next id keeps the ids ascending. */
  lemma AppendNextKeepsAscending(h: seq<ChatMessage>, m: ChatMessage)
    requires IdsAscending(h)
    requires m.id == NextUserId(h)
    ensures IdsAscending(h + [m])
  {
    NextIdFollowsLast(h);
  }

  /**
   * The assistant id computed right after a user entry with the next user id
   * was appended is that user id plus one.
   */
  lemma AssistantIdFollowsUser(h: seq<ChatMessage>, u: ChatMessage)
    requires forall i :: 0 <= i < |h| ==> 0 <= h[i].id
    requires u.id == NextUserId(h)
    ensures NextAssistantId(h + [u]) == u.id + 1
  {
    var h' := h + [u];
    var a := NextAssistantId(h');
    assert h'[|h|] == u;
    assert forall j :: 0 <= j < |h'| ==> h'[j].id <= u.id;
  }

  /**
   * The entry update of a non-final read: every entry whose id matches gets
   * `delta` appended to its message and `streaming` set to true.
   */
  function Appended(h: seq<ChatMessage>, id: int, delta: string): (r: seq<ChatMessage>)
    ensures |r| == |h|
    ensures forall i :: 0 <= i < |h| ==>
      r[i].id == h[i].id && r[i].messageType == h[i].messageType
    ensures forall i :: 0 <= i < |h| && h[i].id != id ==> r[i] == h[i]
    ensures forall i :: 0 <= i < |h| && h[i].id == id ==>
      r[i].message == h[i].message + delta && r[i].streaming == Some(true)
  {
    if h == [] then []
    else
      var m := h[0];
      [if m.id == id then m.(message := m.message + delta, streaming := Some(true)) else m]
        + Appended(h[1..], id, delta)
  }

  /**
   * The entry update on `done`: every entry whose id matches gets `streaming`
   * set to false and keeps its message.
   */
  function Finalized(h: seq<ChatMessage>, id: int): (r: seq<ChatMessage>)
    ensures |r| == |h|
    ensures forall i :: 0 <= i < |h| ==>
      r[i].id == h[i].id && r[i].messageType == h[i].messageType && r[i].message == h[i].message
    ensures forall i :: 0 <= i < |h| && h[i].id != id ==> r[i] == h[i]
    ensures forall i :: 0 <= i < |h| && h[i].id == id ==> r[i].streaming == Some(false)
  {
    if h == [] then []
    else
      var m := h[0];
      [if m.id == id then m.(streaming := Some(false)) else m] + Finalized(h[1..], id)
  }

  /** Two appends to the same entry are one append of both deltas, in order. */
  lemma {:induction false} AppendedTwice(h: seq<ChatMessage>, id: int, d1: string, d2: string)
    ensures Appended(Appended(h, id, d1), id, d2) == Appended(h, id, d1 + d2)
  {
    if h != [] {
      AppendedTwice(h[1..], id, d1, d2);
      var once := Appended(h, id, d1);
      assert once[1..] == Appended(h[1..], id, d1);
      assert h[0].message + d1 + d2 == h[0].message + (d1 + d2);
    }
  }

  /** Finalizing after an empty append is finalizing alone. */
  lemma FinalizedAfterEmptyAppend(h: seq<ChatMessage>, id: int)
    ensures Finalized(Appended(h, id, ""), id) == Finalized(h, id)
  {
    var l, r := Finalized(Appended(h, id, ""), id), Finalized(h, id);
    forall i | 0 <= i < |h| ensures l[i] == r[i] {
      if h[i].id == id {
        assert h[i].message + "" == h[i].message;
      }
    }
  }

  /** Completion is idempotent: a second `done` update changes nothing. */
  lemma FinalizedIdempotent(h: seq<ChatMessage>, id: int)
    ensures Finalized(Finalized(h, id), id) == Finalized(h, id)
  {
    var l, r := Finalized(Finalized(h, id), id), Finalized(h, id);
    assert forall i :: 0 <= i < |h| ==> l[i] == r[i];
  }

  /**
   * With ascending (hence unique) ids, an append changes exactly the one entry
   * carrying the id and leaves every other entry where it was.
   */
  lemma AppendedChangesOneEntry(h: seq<ChatMessage>, k: nat, delta: string)
    requires IdsAscending(h)
    requires k < |h|
    ensures Appended(h, h[k].id, delta)
      == h[k := h[k].(message := h[k].message + delta, streaming := Some(true))]
  {
    var l := Appended(h, h[k].id, delta);
    var r := h[k := h[k].(message := h[k].message + delta, streaming := Some(true))];
    forall i | 0 <= i < |h| ensures l[i] == r[i] {
      assert i != k ==> h[i].id != h[k].id;
    }
  }

  /** With ascending ids, a `done` update changes exactly the one entry carrying the id. */
  lemma FinalizedChangesOneEntry(h: seq<ChatMessage>, k: nat)
    requires IdsAscending(h)
    requires k < |h|
    ensures Finalized(h, h[k].id) == h[k := h[k].(streaming := Some(false))]
  {
    var l := Finalized(h, h[k].id);
    var r := h[k := h[k].(streaming := Some(false))];
    forall i | 0 <= i < |h| ensures l[i] == r[i] {
      assert i != k ==> h[i].id != h[k].id;
    }
  }
}
