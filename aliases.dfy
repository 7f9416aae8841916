/**
 * Sender identity normalisation (`AgentLoop._sender_aliases`): a channel may
 * encode several identifiers for one sender as `"id1|id2|..."`.
 */
module Aliases {
  import opened Strings

  predicate NoDuplicates<T(==)>(s: seq<T>) {
    forall i, j :: 0 <= i < j < |s| ==> s[i] != s[j]
  }

  /** Every part trimmed (`[p.strip() for p in parts]`). */
  function StripAll(parts: seq<string>): (r: seq<string>)
    ensures |r| == |parts|
  {
    seq(|parts|, i requires 0 <= i < |parts| => Strip(parts[i]))
  }

  /** The non-empty elements of `s`, in order. */
  function NonEmpty(s: seq<string>): seq<string>
    decreases |s|
  {
    if |s| == 0 then []
    else (if s[0] != "" then [s[0]] else []) + NonEmpty(s[1..])
  }

  /** `list(dict.fromkeys(s))`: each element once, at its first occurrence. */
  function Dedup(s: seq<string>): (r: seq<string>)
    ensures NoDuplicates(r)
    ensures forall x :: x in r <==> x in s
    decreases |s|
  {
    if |s| == 0 then []
    else
      var p := Dedup(s[..|s| - 1]);
      var x := s[|s| - 1];
      assert s == s[..|s| - 1] + [x];
      if x in p then p else p + [x]
  }

  lemma {:induction false} DedupHead(s: seq<string>)
    requires s != []
    ensures Dedup(s) != [] && Dedup(s)[0] == s[0]
    decreases |s|
  {
    if |s| > 1 {
      DedupHead(s[..|s| - 1]);
    }
  }

  /** Dedup keeps the elements in the order of their first occurrence in `s`. */
  lemma {:induction false} DedupOrder(s: seq<string>)
    ensures forall i, j :: 0 <= i < j < |Dedup(s)| ==>
      FirstIndex(s, Dedup(s)[i]) < FirstIndex(s, Dedup(s)[j])
    decreases |s|
  {
    if |s| > 0 {
      var s', x := s[..|s| - 1], s[|s| - 1];
      assert s == s' + [x];
      var p := Dedup(s');
      DedupOrder(s');
      forall y | y in p ensures FirstIndex(s, y) == FirstIndex(s', y) {
        FirstIndexOfPrefix(s', [x], y);
      }
      if x !in p {
        assert FirstIndex(s, x) == |s'|;
        forall i, j | 0 <= i < j < |Dedup(s)|
          ensures FirstIndex(s, Dedup(s)[i]) < FirstIndex(s, Dedup(s)[j])
        {
          if j < |p| {
            assert Dedup(s)[i] == p[i] && Dedup(s)[j] == p[j];
          } else {
            assert Dedup(s)[i] == p[i] && Dedup(s)[j] == x;
          }
        }
      }
    }
  }

  lemma {:induction false} NonEmptyMembers(s: seq<string>, t: string)
    ensures t in NonEmpty(s) <==> t != "" && t in s
    decreases |s|
  {
    if |s| > 0 {
      NonEmptyMembers(s[1..], t);
      assert s == [s[0]] + s[1..];
    }
  }

  lemma {:induction false} NonEmptyEmpty(s: seq<string>)
    ensures NonEmpty(s) == [] <==> forall i :: 0 <= i < |s| ==> s[i] == ""
    decreases |s|
  {
    if |s| > 0 {
      NonEmptyEmpty(s[1..]);
      assert forall i :: 1 <= i < |s| ==> s[i] == s[1..][i - 1];
    }
  }

  /** Dropping the empty elements keeps the others in the order of their first occurrence. */
  lemma {:induction false} NonEmptyOrder(t: seq<string>, x: string, y: string)
    requires x != "" && y != "" && x in t && y in t
    ensures x in NonEmpty(t) && y in NonEmpty(t)
    ensures FirstIndex(NonEmpty(t), x) < FirstIndex(NonEmpty(t), y) <==> FirstIndex(t, x) < FirstIndex(t, y)
    decreases |t|
  {
    NonEmptyMembers(t, x);
    NonEmptyMembers(t, y);
    var ne, t' := NonEmpty(t), t[1..];
    if t[0] != x && t[0] != y {
      assert x in t' && y in t' by {
        assert t == [t[0]] + t';
      }
      NonEmptyOrder(t', x, y);
      var rest := NonEmpty(t');
      if t[0] == "" {
        assert ne == rest;
      } else {
        assert FirstIndex(ne, x) == 1 + FirstIndex(rest, x) && FirstIndex(ne, y) == 1 + FirstIndex(rest, y) by {
          assert ne == [t[0]] + rest && ne[0] == t[0] && ne[1..] == rest;
        }
      }
    } else {
      assert ne[0] == t[0] by {
        assert t[0] != "";
      }
    }
  }

  /** The de-duplicated non-empty elements of `t` are in the order of their first occurrence in `t`. */
  lemma DedupNonEmptyOrder(t: seq<string>)
    ensures forall a :: a in Dedup(NonEmpty(t)) ==> a != "" && a in t
    ensures forall i, j :: 0 <= i < j < |Dedup(NonEmpty(t))| ==>
      FirstIndex(t, Dedup(NonEmpty(t))[i]) < FirstIndex(t, Dedup(NonEmpty(t))[j])
  {
    var raw := NonEmpty(t);
    var r := Dedup(raw);
    forall a ensures a in raw <==> a != "" && a in t {
      NonEmptyMembers(t, a);
    }
    DedupOrder(raw);
    forall i, j | 0 <= i < j < |r| ensures FirstIndex(t, r[i]) < FirstIndex(t, r[j]) {
      assert r[i] in raw && r[j] in raw;
      NonEmptyOrder(t, r[i], r[j]);
    }
  }

  /** Index of the first non-empty element. */
  function FirstNonEmpty(s: seq<string>): (k: nat)
    requires exists i :: 0 <= i < |s| && s[i] != ""
    ensures k < |s| && s[k] != ""
    ensures forall j :: 0 <= j < k ==> s[j] == ""
    decreases |s|
  {
    if s[0] != "" then 0
    else
      var i :| 0 <= i < |s| && s[i] != "";
      assert s[1..][i - 1] == s[i];
      var k := FirstNonEmpty(s[1..]);
      assert forall j :: 1 <= j <= k ==> s[j] == s[1..][j - 1];
      k + 1
  }

  /** The first element kept is the first non-empty one. */
  lemma {:induction false} NonEmptyHead(s: seq<string>)
    requires NonEmpty(s) != []
    ensures exists i :: 0 <= i < |s| && s[i] != ""
    ensures NonEmpty(s)[0] == s[FirstNonEmpty(s)]
    decreases |s|
  {
    if s[0] == "" {
      NonEmptyHead(s[1..]);
      var i :| 0 <= i < |s[1..]| && s[1..][i] != "";
      assert s[i + 1] != "";
    }
  }

  /** The `|`-separated parts of a sender id (Python's `sender_id.split("|")`). */
  function Parts(senderId: string): seq<string> {
    SplitOn(senderId, '|')
  }

  /** Each `|`-separated part of a sender id, trimmed. */
  function Trimmed(senderId: string): seq<string> {
    StripAll(Parts(senderId))
  }

  /** The trimmed parts line up with the parts: the `i`-th is the `i`-th part, stripped. */
  lemma TrimmedParts(senderId: string)
    ensures |Trimmed(senderId)| == |Parts(senderId)|
    ensures forall i :: 0 <= i < |Parts(senderId)| ==> Trimmed(senderId)[i] == Strip(Parts(senderId)[i])
  {
  }

  /**
   * The primary id and the alias list built from the trimmed parts `t`. Both
   * are empty when every part is blank; otherwise the primary id is the first
   * non-blank part and the aliases are every distinct non-blank part, once
   * each, in the order of first occurrence, starting with the primary id.
   */
  function AliasesOf(t: seq<string>): (r: (string, seq<string>))
    ensures r.1 == [] <==> forall i :: 0 <= i < |t| ==> t[i] == ""
    ensures r.1 == [] ==> r.0 == ""
    ensures r.1 != [] ==> r.0 == r.1[0] && r.0 != ""
    ensures r.1 != [] ==>
      exists k :: 0 <= k < |t| && t[k] == r.0 && (forall j :: 0 <= j < k ==> t[j] == "")
    ensures forall a :: a in r.1 <==> a != "" && a in t
    ensures NoDuplicates(r.1)
    ensures forall a :: a in r.1 <==> a in NonEmpty(t)
    ensures forall i, j :: 0 <= i < j < |r.1| ==> FirstIndex(t, r.1[i]) < FirstIndex(t, r.1[j])
  {
    var raw := NonEmpty(t);
    NonEmptyEmpty(t);
    DedupNonEmptyOrder(t);
    forall a ensures a in raw <==> a != "" && a in t {
      NonEmptyMembers(t, a);
    }
    if raw == [] then ("", [])
    else
      NonEmptyHead(t);
      DedupHead(raw);
      (raw[0], Dedup(raw))
  }

  /**
   * `_sender_aliases(sender_id)`: the aliases of the trimmed `|`-separated
   * parts of the sender id.
   */
  function SenderAliases(senderId: string): (string, seq<string>) {
    AliasesOf(Trimmed(senderId))
  }

  /** A trimmed part is empty exactly when the part is blank, i.e. all whitespace. */
  lemma TrimmedBlank(senderId: string)
    ensures |Trimmed(senderId)| == |Parts(senderId)|
    ensures forall i :: 0 <= i < |Parts(senderId)| ==>
      Trimmed(senderId)[i] == Strip(Parts(senderId)[i]) && (Trimmed(senderId)[i] == "" <==> AllSpace(Parts(senderId)[i]))
  {
    TrimmedParts(senderId);
    forall i | 0 <= i < |Parts(senderId)| ensures Strip(Parts(senderId)[i]) == "" <==> AllSpace(Parts(senderId)[i]) {
      StripSpec(Parts(senderId)[i]);
    }
  }

  /** `_sender_aliases` gives `("", [])` exactly when every `|`-separated part of the sender id is blank. */
  lemma SenderAliasesBlank(senderId: string)
    ensures var ps := Parts(senderId);
      (SenderAliases(senderId).1 == [] <==> forall i :: 0 <= i < |ps| ==> AllSpace(ps[i]))
      && (SenderAliases(senderId).1 == [] ==> SenderAliases(senderId).0 == "")
  {
    TrimmedBlank(senderId);
  }

  /** Otherwise the primary id heads the aliases and is the first non-blank part, stripped. */
  lemma SenderAliasesPrimary(senderId: string)
    requires SenderAliases(senderId).1 != []
    ensures var r, ps := SenderAliases(senderId), Parts(senderId);
      r.0 == r.1[0]
      && exists k :: 0 <= k < |ps| && r.0 == Strip(ps[k]) && !AllSpace(ps[k])
           && forall j :: 0 <= j < k ==> AllSpace(ps[j])
  {
    TrimmedBlank(senderId);
    var t := Trimmed(senderId);
    var k :| 0 <= k < |t| && t[k] == SenderAliases(senderId).0 && (forall j :: 0 <= j < k ==> t[j] == "");
    assert SenderAliases(senderId).0 != "";
  }

  /** An id is an alias exactly when it is a non-blank `|`-separated part of the sender id, stripped. */
  lemma SenderAliasesMembers(senderId: string, a: string)
    ensures var ps := Parts(senderId);
      a in SenderAliases(senderId).1 <==> exists i :: 0 <= i < |ps| && a == Strip(ps[i]) && !AllSpace(ps[i])
  {
    TrimmedBlank(senderId);
    var ps, t := Parts(senderId), Trimmed(senderId);
    if a in SenderAliases(senderId).1 {
      var i :| 0 <= i < |t| && t[i] == a;
      assert a == Strip(ps[i]) && !AllSpace(ps[i]);
    }
    if exists i :: 0 <= i < |ps| && a == Strip(ps[i]) && !AllSpace(ps[i]) {
      var i :| 0 <= i < |ps| && a == Strip(ps[i]) && !AllSpace(ps[i]);
      assert t[i] == a;
    }
  }
}
