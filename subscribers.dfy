/** The subscriber store: a list of user ids kept in a JSON file, loaded afresh
    for every use, changed in place by subscribe and unsubscribe, and written
    back whole after each change. */
module Subscribers {

  /** No id occurs twice. */
  predicate NoDuplicates(s: seq<string>) {
    forall i, j :: 0 <= i < j < |s| ==> s[i] != s[j]
  }

  /** The position of the first occurrence of `x` in `s` (Python's `list.index`). */
  function IndexOf(s: seq<string>, x: string): (i: nat)
    requires x in s
    ensures i < |s| && s[i] == x
    ensures forall j :: 0 <= j < i ==> s[j] != x
  {
    if s[0] == x then 0 else 1 + IndexOf(s[1..], x)
  }

  /** Python's `list.remove(x)`: `s` without the first occurrence of `x`. */
  function RemoveFirst(s: seq<string>, x: string): (r: seq<string>)
    requires x in s
  {
    var i := IndexOf(s, x);
    s[..i] + s[i + 1..]
  }

  /** Removing the first occurrence leaves one `x` fewer and every other element. */
  lemma RemoveFirstCount(s: seq<string>, x: string)
    requires x in s
    ensures multiset(RemoveFirst(s, x)) == multiset(s) - multiset{x}
  {
    var i := IndexOf(s, x);
    var before, after := s[..i], s[i + 1..];
    assert s == before + [x] + after;
    assert RemoveFirst(s, x) == before + after;
  }

  /** Removing the first occurrence keeps the elements before it in place and
      moves each element after it one position down. */
  lemma RemoveFirstPositions(s: seq<string>, x: string)
    requires x in s
    ensures |RemoveFirst(s, x)| == |s| - 1
    ensures forall j :: 0 <= j < IndexOf(s, x) ==> RemoveFirst(s, x)[j] == s[j]
    ensures forall j :: IndexOf(s, x) <= j < |s| - 1 ==> RemoveFirst(s, x)[j] == s[j + 1]
  {
  }

  /** What removing the first occurrence does to the list: one `x` fewer, every
      other element kept, in its relative order, and only the first `x` gone. */
  lemma RemoveFirstSpec(s: seq<string>, x: string)
    requires x in s
    ensures |RemoveFirst(s, x)| == |s| - 1
    ensures multiset(RemoveFirst(s, x)) == multiset(s) - multiset{x}
    ensures forall j :: 0 <= j < IndexOf(s, x) ==> RemoveFirst(s, x)[j] == s[j]
    ensures forall j :: IndexOf(s, x) <= j < |s| - 1 ==> RemoveFirst(s, x)[j] == s[j + 1]
  {
    RemoveFirstCount(s, x);
    RemoveFirstPositions(s, x);
  }

  /** Removing from a duplicate-free list keeps it duplicate-free and removes `x` entirely. */
  lemma RemoveFirstNoDuplicates(s: seq<string>, x: string)
    requires x in s && NoDuplicates(s)
    ensures NoDuplicates(RemoveFirst(s, x))
    ensures x !in RemoveFirst(s, x)
    ensures forall y :: y in RemoveFirst(s, x) <==> y in s && y != x
  {
    var i := IndexOf(s, x);
    var r := RemoveFirst(s, x);
    RemoveFirstSpec(s, x);
    forall a, b | 0 <= a < b < |r| ensures r[a] != r[b] {
      var a' := if a < i then a else a + 1;
      var b' := if b < i then b else b + 1;
      assert r[a] == s[a'] && r[b] == s[b'];
    }
    forall y ensures y in r <==> y in s && y != x {
      if y in r {
        var k :| 0 <= k < |r| && r[k] == y;
        var k' := if k < i then k else k + 1;
        assert s[k'] == y && k' != i;
      }
      if y in s && y != x {
        var k :| 0 <= k < |s| && s[k] == y;
        assert k != i;
        assert r[if k < i then k else k - 1] == y;
      }
    }
  }

  /** The list after a subscribe by `id`: unchanged if `id` is already in it,
      otherwise `id` appended at the end. */
  function Subscribe(subs: seq<string>, id: string): (r: seq<string>)
    ensures id in subs ==> r == subs
    ensures id !in subs ==> |r| == |subs| + 1 && r[..|subs|] == subs && r[|subs|] == id
  {
    if id in subs then subs else subs + [id]
  }

  /** The list after an unsubscribe by `id`: its first occurrence removed if there
      is one, otherwise unchanged. */
  function Unsubscribe(subs: seq<string>, id: string): (r: seq<string>)
  {
    if id in subs then RemoveFirst(subs, id) else subs
  }

  /** Subscribe adds `id` to the members and nothing else, and keeps the list duplicate-free. */
  lemma SubscribeMembers(subs: seq<string>, id: string)
    ensures forall y :: y in Subscribe(subs, id) <==> y in subs || y == id
    ensures NoDuplicates(subs) ==> NoDuplicates(Subscribe(subs, id))
  {
    var r := Subscribe(subs, id);
    if id !in subs {
      assert r == subs + [id];
      forall y ensures y in r <==> y in subs || y == id {
        assert y in subs + [id] <==> y in subs || y == id;
      }
    }
  }

  /** Subscribing twice is subscribing once. */
  lemma SubscribeIdempotent(subs: seq<string>, id: string)
    ensures Subscribe(Subscribe(subs, id), id) == Subscribe(subs, id)
  {
    SubscribeMembers(subs, id);
  }

  /** Unsubscribe takes `id` out of the members, keeps the others, and keeps the
      list duplicate-free; an absent id leaves the list as it was. */
  lemma UnsubscribeMembers(subs: seq<string>, id: string)
    requires NoDuplicates(subs)
    ensures forall y :: y in Unsubscribe(subs, id) <==> y in subs && y != id
    ensures NoDuplicates(Unsubscribe(subs, id))
    ensures id !in subs ==> Unsubscribe(subs, id) == subs
  {
    if id in subs {
      RemoveFirstNoDuplicates(subs, id);
    }
  }

  /** Unsubscribing right after a fresh subscribe restores the list exactly. */
  lemma SubscribeThenUnsubscribe(subs: seq<string>, id: string)
    requires id !in subs
    ensures Unsubscribe(Subscribe(subs, id), id) == subs
  {
    var r := subs + [id];
    assert id in r;
    assert IndexOf(r, id) == |subs|;
    assert r[..|subs|] == subs;
  }

  /** The JSON file behind the store: absent, unreadable, or holding a list of ids. */
  datatype StoredFile = Missing | Corrupt | Stored(ids: seq<string>)

  /** How one `save_subscribers` call ends: the list is written; `open(..., "w")`
      fails and the file is untouched; or the open has already truncated the
      file when `json.dump` fails, leaving empty or cut-off JSON behind. */
  datatype WriteOutcome = Written | OpenFailed | DumpFailed

  /** The file after a save of `subs` that ends with `outcome`. */
  function AfterSave(before: StoredFile, subs: seq<string>, outcome: WriteOutcome): StoredFile {
    match outcome
    case Written => Stored(subs)
    case OpenFailed => before
    case DumpFailed => Corrupt
  }

  /** The subscribers file, which `load_subscribers` reads and `save_subscribers` overwrites whole. */
  class SubscriberFile {
    var contents: StoredFile

    constructor (initial: StoredFile)
      ensures contents == initial
    {
      contents := initial;
    }

    /** `load_subscribers()`: the stored list, or `[]` when the file is missing or cannot be read. */
    function Load(): (r: seq<string>)
      reads this
      ensures contents.Stored? ==> r == contents.ids
      ensures !contents.Stored? ==> r == []
    {
      if contents.Stored? then contents.ids else []
    }

    /** `save_subscribers(subs)`: overwrites the file with the whole list; a
        failure is only logged. A failed open leaves the file as it was, while a
        failure after the truncating open leaves a file that loads as `[]`. */
    method Save(subs: seq<string>, outcome: WriteOutcome)
      modifies this
      ensures contents == AfterSave(old(contents), subs, outcome)
      ensures outcome.Written? ==> Load() == subs
      ensures outcome.OpenFailed? ==> Load() == old(Load())
      ensures outcome.DumpFailed? ==> Load() == []
    {
      match outcome
      case Written => contents := Stored(subs);
      case OpenFailed =>
      case DumpFailed => contents := Corrupt;
    }
  }

  /** The Python list of ids loaded from the file, which the handler changes in place. */
  class SubscriberList {
    var ids: seq<string>

    constructor (initial: seq<string>)
      ensures ids == initial
    {
      ids := initial;
    }

    /** `subs.append(id)`. */
    method Append(id: string)
      modifies this
      ensures ids == old(ids) + [id]
    {
      ids := ids + [id];
    }

    /** `subs.remove(id)`, which the unsubscribe branch only calls after checking that `id` is in the list. */
    method Remove(id: string)
      requires id in ids
      modifies this
      ensures ids == RemoveFirst(old(ids), id)
    {
      var i := IndexOf(ids, id);
      ids := ids[..i] + ids[i + 1..];
    }
  }
}
