/**
 * Grounding citations of a streamed reply (App.tsx:94-98): collect the grounding entries of
 * every accepted chunk, keep those with a web source that has a URI and a title, and
 * de-duplicate them by URI the way `new Map(entries.map(e => [e.web.uri, e])).values()` does:
 * one entry per URI, in the order each URI first occurs, holding the last entry seen for it.
 */
module Grounding {
  import opened Wrappers
  import opened ChatTypes

  /** A raw `web` source of a grounding entry as the provider sends it; a missing `uri` or
      `title` is the empty string. */
  datatype RawWeb = RawWeb(uri: string, title: string)

  /** A raw grounding entry: `web` may be absent. */
  datatype RawGroundingChunk = RawGroundingChunk(web: Option<RawWeb>)

  /** One streamed response chunk: its text and the grounding entries of its first candidate
      (an absent candidate or metadata is the empty sequence). */
  datatype StreamChunk = StreamChunk(text: string, grounding: seq<RawGroundingChunk>)

  /** `allChunks.flatMap(chunk => chunk.candidates?.[0]?.groundingMetadata?.groundingChunks || [])` */
  function AllGrounding(chunks: seq<StreamChunk>): seq<RawGroundingChunk>
  {
    if |chunks| == 0 then [] else AllGrounding(chunks[..|chunks| - 1]) + chunks[|chunks| - 1].grounding
  }

  /** The filter `!!(chunk.web && chunk.web.uri && chunk.web.title)`. */
  predicate IsCitation(g: RawGroundingChunk) {
    g.web.Some? && g.web.value.uri != "" && g.web.value.title != ""
  }

  function ToCitation(g: RawGroundingChunk): GroundingChunk
    requires IsCitation(g)
  {
    GroundingChunk(g.web.value.uri, g.web.value.title)
  }

  /** The raw entries that pass the filter, in order. */
  function Citations(raw: seq<RawGroundingChunk>): (r: seq<GroundingChunk>)
    ensures |r| <= |raw|
    ensures forall c :: c in r ==> c.uri != "" && c.title != ""
    ensures forall c :: c in r ==> exists g :: g in raw && IsCitation(g) && ToCitation(g) == c
    ensures forall g :: g in raw && IsCitation(g) ==> ToCitation(g) in r
  {
    if |raw| == 0 then []
    else
      var rest := Citations(raw[..|raw| - 1]);
      var last := raw[|raw| - 1];
      assert raw == raw[..|raw| - 1] + [last];
      if IsCitation(last) then rest + [ToCitation(last)] else rest
  }

  /** The filter keeps the raw order: filtering a concatenation is concatenating the
      filtered parts. */
  lemma {:induction false} CitationsAppend(a: seq<RawGroundingChunk>, b: seq<RawGroundingChunk>)
    ensures Citations(a + b) == Citations(a) + Citations(b)
    decreases |b|
  {
    if |b| == 0 {
      assert a + b == a;
    } else {
      var n := |b| - 1;
      var last := if IsCitation(b[n]) then [ToCitation(b[n])] else [];
      calc {
        Citations(a + b);
        { assert a + b == (a + b[..n]) + [b[n]]; }
        Citations((a + b[..n]) + [b[n]]);
        { CitationsSnoc(a + b[..n], b[n]); }
        Citations(a + b[..n]) + last;
        { CitationsAppend(a, b[..n]); }
        (Citations(a) + Citations(b[..n])) + last;
        Citations(a) + (Citations(b[..n]) + last);
        { CitationsSnoc(b[..n], b[n]); assert b == b[..n] + [b[n]]; }
        Citations(a) + Citations(b);
      }
    }
  }

  lemma CitationsSnoc(s: seq<RawGroundingChunk>, g: RawGroundingChunk)
    ensures Citations(s + [g]) == Citations(s) + if IsCitation(g) then [ToCitation(g)] else []
  {
    assert (s + [g])[..|s|] == s;
  }

  /** A single raw entry gives its citation when it passes the filter, and nothing otherwise. */
  lemma CitationsOne(g: RawGroundingChunk)
    ensures Citations([g]) == if IsCitation(g) then [ToCitation(g)] else []
  {
    assert [g][..0] == [];
  }

  /** The URIs of a list of citations, in order. */
  function Uris(gs: seq<GroundingChunk>): (r: seq<string>)
    ensures |r| == |gs| && forall i :: 0 <= i < |gs| ==> r[i] == gs[i].uri
  {
    seq(|gs|, i requires 0 <= i < |gs| => gs[i].uri)
  }

  predicate Distinct(s: seq<string>) {
    forall i, j :: 0 <= i < j < |s| ==> s[i] != s[j]
  }

  /** `Map.prototype.set` on a map whose entries are listed in insertion order: a key already
      present keeps its place and takes the new value; a new key goes last. */
  function Insert(acc: seq<GroundingChunk>, g: GroundingChunk): seq<GroundingChunk>
  {
    if |acc| == 0 then [g]
    else if acc[0].uri == g.uri then [g] + acc[1..]
    else [acc[0]] + Insert(acc[1..], g)
  }

  /** `Array.from(new Map(gs.map(item => [item.web.uri, item])).values())` */
  function UniqueByUri(gs: seq<GroundingChunk>): seq<GroundingChunk>
  {
    if |gs| == 0 then [] else Insert(UniqueByUri(gs[..|gs| - 1]), gs[|gs| - 1])
  }

  /** The citations a reply built from `chunks` is given. */
  function CollectGrounding(chunks: seq<StreamChunk>): seq<GroundingChunk>
  {
    UniqueByUri(Citations(AllGrounding(chunks)))
  }

  // ----- reference definitions -----

  /** The distinct elements of `s`, each where it first occurs. */
  function FirstOccurrences(s: seq<string>): seq<string>
  {
    if |s| == 0 then []
    else
      var p := FirstOccurrences(s[..|s| - 1]);
      if s[|s| - 1] in p then p else p + [s[|s| - 1]]
  }

  /** The index at which `x` first occurs in `s`. */
  function FirstIndex(s: seq<string>, x: string): (k: nat)
    requires x in s
    ensures k < |s| && s[k] == x && x !in s[..k]
  {
    var n := |s| - 1;
    if x in s[..n] then
      var k := FirstIndex(s[..n], x);
      assert s[..n][..k] == s[..k];
      k
    else
      assert s == s[..n] + [s[n]];
      n
  }

  /** The last citation in `gs` whose URI is `u`. */
  function LastWith(gs: seq<GroundingChunk>, u: string): Option<GroundingChunk>
  {
    if |gs| == 0 then None
    else if gs[|gs| - 1].uri == u then Some(gs[|gs| - 1])
    else LastWith(gs[..|gs| - 1], u)
  }

  // ----- properties of the reference definitions -----

  /** FirstOccurrences has no repetitions and holds exactly the elements of `s`. */
  lemma {:induction false} FirstOccurrencesSpec(s: seq<string>)
    ensures Distinct(FirstOccurrences(s))
    ensures forall x :: x in FirstOccurrences(s) <==> x in s
  {
    if |s| > 0 {
      FirstOccurrencesSpec(s[..|s| - 1]);
      assert s == s[..|s| - 1] + [s[|s| - 1]];
    }
  }

  /** The elements of `f` occur in `s`, and their first occurrences there are in `f`'s order. */
  ghost predicate InFirstOccurrenceOrder(f: seq<string>, s: seq<string>) {
    forall i, j :: 0 <= i < j < |f| ==> OccursBefore(s, f[i], f[j])
  }

  /** `x` and `y` occur in `s`, and `x` occurs first. */
  ghost predicate OccursBefore(s: seq<string>, x: string, y: string) {
    x in s && y in s && FirstIndex(s, x) < FirstIndex(s, y)
  }

  /** FirstOccurrences lists the elements in the order of their first occurrence in `s`. */
  lemma {:induction false} FirstOccurrencesOrder(s: seq<string>)
    ensures InFirstOccurrenceOrder(FirstOccurrences(s), s)
  {
    if |s| > 0 {
      FirstOccurrencesOrder(s[..|s| - 1]);
      var f := FirstOccurrences(s);
      forall i, j | 0 <= i < j < |f| ensures OccursBefore(s, f[i], f[j]) {
        OrderStep(s, i, j);
      }
    }
  }

  /** The inductive step of `FirstOccurrencesOrder`, for one pair of positions. */
  lemma OrderStep(s: seq<string>, i: nat, j: nat)
    requires |s| > 0 && InFirstOccurrenceOrder(FirstOccurrences(s[..|s| - 1]), s[..|s| - 1])
    requires i < j < |FirstOccurrences(s)|
    ensures OccursBefore(s, FirstOccurrences(s)[i], FirstOccurrences(s)[j])
  {
    var n := |s| - 1;
    var s' := s[..n];
    var p := FirstOccurrences(s');
    var f := FirstOccurrences(s);
    assert f == if s[n] in p then p else p + [s[n]];
    assert f[i] == p[i];
    assert p[i] in s' by {
      FirstOccurrencesSpec(s');
    }
    FirstIndexExtend(s, f[i]);
    if j < |p| {
      assert f[j] == p[j];
      assert OccursBefore(s', p[i], p[j]);
      FirstIndexExtend(s, f[j]);
    } else {
      assert f[j] == s[n] && s[n] !in s' by {
        FirstOccurrencesSpec(s');
      }
      FirstIndexLast(s);
    }
  }

  /** An element that does not occur before the end first occurs at the end. */
  lemma FirstIndexLast(s: seq<string>)
    requires |s| > 0 && s[|s| - 1] !in s[..|s| - 1]
    ensures FirstIndex(s, s[|s| - 1]) == |s| - 1
  {
  }

  /** Appending an element does not move the first occurrence of anything already present. */
  lemma FirstIndexExtend(s: seq<string>, x: string)
    requires |s| > 0 && x in s[..|s| - 1]
    ensures x in s && FirstIndex(s, x) == FirstIndex(s[..|s| - 1], x) < |s| - 1
  {
  }

  // ----- Map semantics of UniqueByUri -----

  /** The URIs of a non-empty list are its first URI followed by the URIs of the rest, and a
      repetition-free list of URIs stays so without its first entry. */
  lemma UrisTail(acc: seq<GroundingChunk>)
    requires |acc| > 0
    ensures Uris(acc) == [acc[0].uri] + Uris(acc[1..])
    ensures Distinct(Uris(acc)) ==> Distinct(Uris(acc[1..]))
  {
    assert forall i :: 0 <= i < |acc| - 1 ==> Uris(acc[1..])[i] == Uris(acc)[i + 1];
  }

  /** `Insert` overwrites the first entry with `g`'s URI ... */
  lemma {:induction false} InsertPresent(acc: seq<GroundingChunk>, g: GroundingChunk, k: nat)
    requires k < |acc| && acc[k].uri == g.uri
    requires forall j :: 0 <= j < k ==> acc[j].uri != g.uri
    ensures Insert(acc, g) == acc[k := g]
  {
    if k > 0 {
      InsertPresent(acc[1..], g, k - 1);
      assert [acc[0]] + acc[1..][k - 1 := g] == acc[k := g];
    }
  }

  /** ... and appends `g` when no entry has its URI. */
  lemma {:induction false} InsertAbsent(acc: seq<GroundingChunk>, g: GroundingChunk)
    requires forall j :: 0 <= j < |acc| ==> acc[j].uri != g.uri
    ensures Insert(acc, g) == acc + [g]
  {
    if |acc| > 0 {
      InsertAbsent(acc[1..], g);
      assert [acc[0]] + (acc[1..] + [g]) == acc + [g];
    }
  }

  /** The URIs of `Insert(acc, g)`: unchanged when `g`'s URI is already there, one more at the
      end otherwise. */
  lemma InsertUris(acc: seq<GroundingChunk>, g: GroundingChunk)
    ensures Uris(Insert(acc, g)) == if g.uri in Uris(acc) then Uris(acc) else Uris(acc) + [g.uri]
  {
    if g.uri in Uris(acc) {
      InsertUrisPresent(acc, g);
    } else {
      InsertUrisAbsent(acc, g);
    }
  }

  lemma InsertUrisPresent(acc: seq<GroundingChunk>, g: GroundingChunk)
    requires g.uri in Uris(acc)
    ensures Uris(Insert(acc, g)) == Uris(acc)
  {
    var k := FirstIndex(Uris(acc), g.uri);
    NoneBefore(acc, g.uri, k);
    InsertPresent(acc, g, k);
    UrisUpdate(acc, k, g);
  }

  /** No entry before position `k` has URI `x` when `x` is not among the first `k` URIs. */
  lemma NoneBefore(acc: seq<GroundingChunk>, x: string, k: nat)
    requires k <= |acc| && x !in Uris(acc)[..k]
    ensures forall j :: 0 <= j < k ==> acc[j].uri != x
  {
    var us := Uris(acc);
    assert forall j :: 0 <= j < k ==> us[..k][j] == acc[j].uri;
  }

  /** Replacing an entry by one with the same URI keeps the URIs. */
  lemma UrisUpdate(acc: seq<GroundingChunk>, k: nat, g: GroundingChunk)
    requires k < |acc| && acc[k].uri == g.uri
    ensures Uris(acc[k := g]) == Uris(acc)
  {
    assert forall i :: 0 <= i < |acc| ==> Uris(acc[k := g])[i] == Uris(acc)[i];
  }

  lemma InsertUrisAbsent(acc: seq<GroundingChunk>, g: GroundingChunk)
    requires g.uri !in Uris(acc)
    ensures Uris(Insert(acc, g)) == Uris(acc) + [g.uri]
  {
    var us := Uris(acc);
    assert forall j :: 0 <= j < |acc| ==> acc[j].uri != g.uri by {
      assert forall j :: 0 <= j < |acc| ==> us[j] == acc[j].uri;
    }
    InsertAbsent(acc, g);
    assert forall i :: 0 <= i <= |acc| ==> Uris(acc + [g])[i] == (us + [g.uri])[i];
  }

  /** `Map.set`: `Insert(acc, g)` holds `g`, every entry of `acc` with another URI, and
      nothing else. */
  lemma {:induction false} InsertElems(acc: seq<GroundingChunk>, g: GroundingChunk)
    requires Distinct(Uris(acc))
    ensures g in Insert(acc, g)
    ensures forall c :: c in acc && c.uri != g.uri ==> c in Insert(acc, g)
    ensures forall c :: c in Insert(acc, g) ==> c == g || (c in acc && c.uri != g.uri)
  {
    if |acc| > 0 && acc[0].uri != g.uri {
      var tail := acc[1..];
      UrisTail(acc);
      InsertElems(tail, g);
      assert acc == [acc[0]] + tail;
    } else if |acc| > 0 {
      forall c | c in acc[1..] ensures c.uri != g.uri {
        var i :| 0 <= i < |acc[1..]| && acc[1..][i] == c;
        assert Uris(acc)[0] != Uris(acc)[i + 1];
      }
      assert acc == [acc[0]] + acc[1..];
    }
  }


  /** The URIs of the de-duplicated list are the URIs of `gs` in first-occurrence order. */
  lemma {:induction false} UniqueUris(gs: seq<GroundingChunk>)
    ensures Uris(UniqueByUri(gs)) == FirstOccurrences(Uris(gs))
  {
    if |gs| > 0 {
      var n := |gs| - 1;
      UniqueUris(gs[..n]);
      InsertUris(UniqueByUri(gs[..n]), gs[n]);
      assert Uris(gs)[..n] == Uris(gs[..n]) by {
        assert forall i :: 0 <= i < n ==> Uris(gs)[..n][i] == Uris(gs[..n])[i];
      }
    }
  }

  /** Each entry of the de-duplicated list is the last entry of `gs` with its URI. */
  lemma {:induction false} UniqueLastWins(gs: seq<GroundingChunk>)
    ensures forall c :: c in UniqueByUri(gs) ==> LastWith(gs, c.uri) == Some(c)
  {
    if |gs| > 0 {
      var n := |gs| - 1;
      UniqueLastWins(gs[..n]);
      UniqueUris(gs[..n]);
      FirstOccurrencesSpec(Uris(gs[..n]));
      InsertElems(UniqueByUri(gs[..n]), gs[n]);
    }
  }

  /** The citations given to a reply: each has a URI and a title, no two share a URI, their
      URIs are exactly those of the kept entries, listed in the order each first occurs, and
      each is the last kept entry with its URI. */
  lemma CollectGroundingSpec(chunks: seq<StreamChunk>)
    ensures var kept := Citations(AllGrounding(chunks));
      var r := CollectGrounding(chunks);
      && Distinct(Uris(r))
      && Uris(r) == FirstOccurrences(Uris(kept))
      && InFirstOccurrenceOrder(Uris(r), Uris(kept))
      && (forall c :: c in r ==> c.uri != "" && c.title != "")
      && (forall c :: c in r ==> LastWith(kept, c.uri) == Some(c))
  {
    var kept := Citations(AllGrounding(chunks));
    UniqueUris(kept);
    FirstOccurrencesSpec(Uris(kept));
    FirstOccurrencesOrder(Uris(kept));
    UniqueLastWins(kept);
    forall c | c in CollectGrounding(chunks) ensures c.uri != "" && c.title != "" {
      LastWithIn(kept, c.uri);
    }
  }

  lemma {:induction false} LastWithIn(gs: seq<GroundingChunk>, u: string)
    ensures LastWith(gs, u).Some? ==> LastWith(gs, u).value in gs && LastWith(gs, u).value.uri == u
  {
    if |gs| > 0 && gs[|gs| - 1].uri != u {
      LastWithIn(gs[..|gs| - 1], u);
    }
  }
}
