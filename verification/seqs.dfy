/** Facts about lists of names shared by the converters, the label maker and
    the feeder script: repetition, first occurrence, and the recurring
    "append what is not there yet" loop. */
module Seqs {
  import opened PyArith

  ghost predicate Distinct(s: seq<string>) {
    forall i, j :: 0 <= i < j < |s| ==> s[i] != s[j]
  }

  /** The index of the first occurrence of `x` in `s`. */
  function FirstIndex(s: seq<string>, x: string): (i: nat)
    requires x in s
    ensures i < |s| && s[i] == x
    ensures forall j :: 0 <= j < i ==> s[j] != x
  {
    if s[0] == x then 0 else 1 + FirstIndex(s[1..], x)
  }

  /** The elements of `r` appear in `s` in the order of their first
      occurrence there. */
  ghost predicate InFirstOccurrenceOrder(r: seq<string>, s: seq<string>)
    requires forall x :: x in r ==> x in s
  {
    forall i, j :: 0 <= i < j < |r| ==> FirstIndex(s, r[i]) < FirstIndex(s, r[j])
  }

  /** The loop `for x in wanted: if x not in present: present.add(x);
      new.append(x)`: the names of `wanted` not already `present`, each once,
      in the order they are first wanted. Every "find, and create only when
      the lookup fails" loop of the scripts adds exactly these names. */
  function Missing(present: set<string>, wanted: seq<string>): (r: seq<string>)
    ensures forall x :: x in r <==> x in wanted && x !in present
    ensures Distinct(r)
    ensures InFirstOccurrenceOrder(r, wanted)
    decreases |wanted|
  {
    if wanted == [] then []
    else
      var w := wanted[0];
      var rest := Missing(if w in present then present else present + {w}, wanted[1..]);
      assert forall y :: y in rest ==> y != w && FirstIndex(wanted, y) == 1 + FirstIndex(wanted[1..], y);
      if w in present then rest else [w] + rest
  }

  /** Nothing is missing once everything wanted is present. */
  lemma MissingWhenPresent(present: set<string>, wanted: seq<string>)
    requires forall x :: x in wanted ==> x in present
    ensures Missing(present, wanted) == []
  {
    if Missing(present, wanted) != [] {
      assert Missing(present, wanted)[0] in Missing(present, wanted);
    }
  }

  /** Wanting one more name adds it at the end exactly when it was neither
      present nor wanted before. */
  lemma {:induction false} MissingSnoc(present: set<string>, wanted: seq<string>, x: string)
    ensures Missing(present, wanted + [x]) ==
            Missing(present, wanted) + (if x in present || x in wanted then [] else [x])
    decreases |wanted|
  {
    if wanted == [] {
      assert wanted + [x] == [x];
      assert [x][1..] == [];
    } else {
      var w := wanted[0];
      var rest := wanted[1..];
      var present' := if w in present then present else present + {w};
      var head := if w in present then [] else [w];
      assert (wanted + [x])[0] == w;
      assert (wanted + [x])[1..] == rest + [x];
      assert Missing(present, wanted + [x]) == head + Missing(present', rest + [x]);
      assert Missing(present, wanted) == head + Missing(present', rest);
      MissingSnoc(present', rest, x);
      assert x in wanted <==> x == w || x in rest;
      assert (x in present' || x in rest) <==> (x in present || x in wanted);
    }
  }

  /** `[x for x in s if keep(x)]`: the elements `keep` accepts, in the
      order of `s`. */
  function Keep(s: seq<string>, keep: string -> bool): (r: seq<string>)
    ensures forall x :: x in r <==> x in s && keep(x)
    ensures |r| <= |s|
  {
    if s == [] then []
    else
      var init, last := s[..|s| - 1], s[|s| - 1];
      assert forall x :: x in s <==> x in init || x == last by {
        assert s == init + [last];
      }
      Keep(init, keep) + (if keep(last) then [last] else [])
  }

  /** Filtering two lists one after the other is filtering their
      concatenation, so `Keep` never reorders. */
  lemma {:induction false} KeepAppend(a: seq<string>, b: seq<string>, keep: string -> bool)
    ensures Keep(a + b, keep) == Keep(a, keep) + Keep(b, keep)
    decreases |b|
  {
    if b == [] {
      assert a + b == a;
    } else {
      var ab := a + b;
      var init, last := b[..|b| - 1], b[|b| - 1];
      var tail := if keep(last) then [last] else [];
      assert ab[..|ab| - 1] == a + init;
      assert ab[|ab| - 1] == last;
      assert Keep(ab, keep) == Keep(a + init, keep) + tail;
      assert Keep(b, keep) == Keep(init, keep) + tail;
      KeepAppend(a, init, keep);
      assert (Keep(a, keep) + Keep(init, keep)) + tail == Keep(a, keep) + (Keep(init, keep) + tail);
    }
  }

  /** How many times `x` occurs in `s`. */
  function Count(s: seq<string>, x: string): nat {
    multiset(s)[x]
  }

  /** `s[start:start + n]` for `start in range(0, len(s), n)`: consecutive
      slices of `n` entries, the last one possibly shorter. */
  function Chunks(s: seq<string>, n: nat): (cs: seq<seq<string>>)
    requires n > 0
    ensures forall c :: c in cs ==> 0 < |c| <= n
    ensures |cs| == CeilDiv(|s|, n)
    ensures forall i :: 0 <= i < |cs| - 1 ==> |cs[i]| == n
    decreases |s|
  {
    if s == [] then
      CeilDivUnique(0, n, 0);
      []
    else if |s| <= n then
      CeilDivUnique(|s|, n, 1);
      [s]
    else
      CeilDivStep(|s|, n);
      var rest := Chunks(s[n..], n);
      var cs := [s[..n]] + rest;
      assert forall i :: 1 <= i < |cs| ==> cs[i] == rest[i - 1];
      cs
  }

  /** Where slice `i` of width `n` starts: `i * n`, counted up. */
  function Offset(i: nat, n: nat): nat {
    if i == 0 then 0 else Offset(i - 1, n) + n
  }

  /** Where slice `i` of width `n` ends in a list of `len` entries. */
  function SliceEnd(i: nat, n: nat, len: nat): nat {
    if Offset(i, n) + n < len then Offset(i, n) + n else len
  }

  /** Slice `i` is the entries from `i * n` up to `(i + 1) * n` or the end:
      nothing is skipped, repeated or reordered. */
  lemma {:induction false} ChunksAreSlices(s: seq<string>, n: nat)
    requires n > 0
    ensures var cs := Chunks(s, n);
            forall i :: 0 <= i < |cs| ==> Offset(i, n) < |s| && cs[i] == s[Offset(i, n)..SliceEnd(i, n, |s|)]
    decreases |s|
  {
    if |s| > n {
      var rest := Chunks(s[n..], n);
      assert Chunks(s, n) == [s[..n]] + rest;
      ChunksAreSlices(s[n..], n);
      ChunksCons(s, n, rest);
    }
  }

  /** The first slice followed by the slices of the rest are the slices of
      the whole list. */
  lemma ChunksCons(s: seq<string>, n: nat, rest: seq<seq<string>>)
    requires 0 < n < |s|
    requires forall i :: 0 <= i < |rest| ==> Offset(i, n) < |s| - n && rest[i] == s[n..][Offset(i, n)..SliceEnd(i, n, |s| - n)]
    ensures var cs := [s[..n]] + rest;
            forall i :: 0 <= i < |cs| ==> Offset(i, n) < |s| && cs[i] == s[Offset(i, n)..SliceEnd(i, n, |s|)]
  {
    var cs := [s[..n]] + rest;
    forall i | 1 <= i < |cs|
      ensures Offset(i, n) < |s| && cs[i] == s[Offset(i, n)..SliceEnd(i, n, |s|)]
    {
      var a, b := Offset(i - 1, n), SliceEnd(i - 1, n, |s| - n);
      assert Offset(i, n) == a + n;
      assert SliceEnd(i, n, |s|) == b + n;
      assert cs[i] == rest[i - 1] == s[n..][a..b];
      assert s[n..][a..b] == s[a + n..b + n];
    }
    assert cs[0] == s[Offset(0, n)..SliceEnd(0, n, |s|)];
  }

  function Flatten(cs: seq<seq<string>>): seq<string> {
    if cs == [] then [] else cs[0] + Flatten(cs[1..])
  }

  lemma {:induction false} ChunksFlatten(s: seq<string>, n: nat)
    requires n > 0
    ensures Flatten(Chunks(s, n)) == s
    decreases |s|
  {
    if |s| > n {
      var rest := Chunks(s[n..], n);
      assert Chunks(s, n) == [s[..n]] + rest;
      ChunksFlatten(s[n..], n);
      FlattenCons(s[..n], rest);
      assert s == s[..n] + s[n..];
    } else if s != [] {
      assert Chunks(s, n) == [s];
      FlattenCons(s, []);
    }
  }

  lemma FlattenCons(c: seq<string>, rest: seq<seq<string>>)
    ensures Flatten([c] + rest) == c + Flatten(rest)
  {
    assert ([c] + rest)[1..] == rest;
  }
}
