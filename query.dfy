/**
 * Query strings and key/value objects built from entries.
 *
 * `FromEntries` is `Object.fromEntries` (and the `obj[k] = v` loop of
 * `getHashParams`): a later entry for the same key overwrites an earlier one.
 * `ParseQuery` is `new URLSearchParams(q)` read back as entries, without
 * percent-decoding and without turning `+` into a space.
 */
module Query {
  import opened Common

  type Entry = (string, string)

  function FromEntries(es: seq<Entry>): (m: map<string, string>)
    ensures forall k :: k in m <==> exists i :: 0 <= i < |es| && es[i].0 == k
    decreases |es|
  {
    if es == [] then map[]
    else
      var last := es[|es| - 1];
      var m := FromEntries(es[..|es| - 1]);
      assert forall i :: 0 <= i < |es| - 1 ==> es[..|es| - 1][i] == es[i];
      m[last.0 := last.1]
  }

  /** Appending an entry overwrites (or adds) its key. */
  lemma FromEntriesSnoc(es: seq<Entry>, e: Entry)
    ensures FromEntries(es + [e]) == FromEntries(es)[e.0 := e.1]
  {
    assert (es + [e])[..|es|] == es;
  }

  /** The value under a key is that of the LAST entry carrying the key. */
  lemma {:induction false} FromEntriesLastWins(es: seq<Entry>, i: nat)
    requires i < |es|
    requires forall j :: i < j < |es| ==> es[j].0 != es[i].0
    ensures es[i].0 in FromEntries(es) && FromEntries(es)[es[i].0] == es[i].1
    decreases |es|
  {
    if i < |es| - 1 {
      var front := es[..|es| - 1];
      assert forall j :: i < j < |front| ==> front[j] == es[j];
      FromEntriesLastWins(front, i);
      assert front[i] == es[i];
    }
  }

  /** A piece `name=value` of a query, split at its first `=`; a piece without `=` has the empty value. */
  function EntryOf(piece: string): (e: Entry)
    ensures '=' !in e.0
    ensures '=' in piece ==> piece == e.0 + "=" + e.1
    ensures '=' !in piece ==> e == (piece, "")
  {
    var (name, value) := SplitFirst(piece, '=');
    (name, value.GetOr(""))
  }

  /** The non-empty `&`-separated pieces of a query, as entries, in order. */
  function Entries(pieces: seq<string>): (es: seq<Entry>)
    ensures |es| <= |pieces|
    ensures forall e :: e in es <==> exists j :: 0 <= j < |pieces| && pieces[j] != "" && e == EntryOf(pieces[j])
  {
    if pieces == [] then []
    else
      var rest := Entries(pieces[1..]);
      assert forall j :: 0 <= j < |pieces[1..]| ==> pieces[1..][j] == pieces[j + 1];
      if pieces[0] == "" then rest else [EntryOf(pieces[0])] + rest
  }

  /** The entries of consecutive runs of pieces follow one another: `URLSearchParams` keeps the pieces' order. */
  lemma {:induction false} EntriesAppend(a: seq<string>, b: seq<string>)
    ensures Entries(a + b) == Entries(a) + Entries(b)
  {
    if a == [] {
      assert a + b == b;
    } else {
      assert (a + b)[0] == a[0];
      assert (a + b)[1..] == a[1..] + b;
      EntriesAppend(a[1..], b);
    }
  }

  /** `URLSearchParams` drops one leading `?` before splitting on `&`. */
  function QueryPieces(q: string): seq<string> {
    var body := if q != [] && q[0] == '?' then q[1..] else q;
    Split(body, '&')
  }

  /** `Object.fromEntries(new URLSearchParams(q))`, without percent-decoding. */
  function ParseQuery(q: string): (m: map<string, string>)
    ensures forall k :: k in m <==> exists j :: 0 <= j < |QueryPieces(q)| && QueryPieces(q)[j] != "" && EntryOf(QueryPieces(q)[j]).0 == k
  {
    var pieces := QueryPieces(q);
    var es := Entries(pieces);
    forall k | k in FromEntries(es)
      ensures exists j :: 0 <= j < |pieces| && pieces[j] != "" && EntryOf(pieces[j]).0 == k
    {
      var i :| 0 <= i < |es| && es[i].0 == k;
      assert es[i] in es;
    }
    forall k | exists j :: 0 <= j < |pieces| && pieces[j] != "" && EntryOf(pieces[j]).0 == k
      ensures k in FromEntries(es)
    {
      var j :| 0 <= j < |pieces| && pieces[j] != "" && EntryOf(pieces[j]).0 == k;
      assert EntryOf(pieces[j]) in es;
    }
    FromEntries(es)
  }

  /** A key holds the value of the last non-empty piece carrying its name. */
  lemma ParseQueryValue(q: string, j: nat)
    requires j < |QueryPieces(q)| && QueryPieces(q)[j] != ""
    requires forall j' :: j < j' < |QueryPieces(q)| && QueryPieces(q)[j'] != "" ==>
               EntryOf(QueryPieces(q)[j']).0 != EntryOf(QueryPieces(q)[j]).0
    ensures EntryOf(QueryPieces(q)[j]).0 in ParseQuery(q)
    ensures ParseQuery(q)[EntryOf(QueryPieces(q)[j]).0] == EntryOf(QueryPieces(q)[j]).1
  {
    var ps := QueryPieces(q);
    var before, after := ps[..j], ps[j + 1..];
    assert ps == before + [ps[j]] + after;
    EntriesAppend(before + [ps[j]], after);
    EntriesAppend(before, [ps[j]]);
    assert Entries([ps[j]]) == [EntryOf(ps[j])];
    var es := Entries(ps);
    var i := |Entries(before)|;
    assert es[i] == EntryOf(ps[j]);
    forall i' | i < i' < |es| ensures es[i'].0 != es[i].0 {
      var e := es[i'];
      assert e == Entries(after)[i' - i - 1];
      assert e in Entries(after);
      var k :| 0 <= k < |after| && after[k] != "" && e == EntryOf(after[k]);
      assert after[k] == ps[j + 1 + k];
    }
    FromEntriesLastWins(es, i);
  }

  /** A query with no `&` and no `=` after its optional `?` is one key with an empty value. */
  lemma SingleKey(name: string)
    requires name != [] && name[0] != '?' && '&' !in name && '=' !in name
    ensures ParseQuery(name) == map[name := ""]
  {
    SplitNoSep(name, '&');
    assert QueryPieces(name) == [name];
    assert SplitFirst(name, '=').1.None?;
    assert Entries([name]) == [(name, "")];
    assert FromEntries([(name, "")]) == FromEntries([])[name := ""];
  }
}
