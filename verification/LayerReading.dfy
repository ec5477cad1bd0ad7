/**
 Reading the entries of an image's layers: the checks on names, kinds and sizes, which
 give extraction what it relies on.
 */
module LayerReading {
  import opened Extraction

  const ENTRY_LIMIT: nat := 4096
  const EXPANDED_LIMIT: nat := 64 * 1024 * 1024

  datatype Kind = Regular | Directory | Other

  /** A name split at its slashes, after one trailing slash was dropped. */
  type Parts = p: seq<string> | p != [] witness [""]

  /** `plain` stands for root ownership, no special mode bits and no extension records. */
  datatype Header = Header(parts: Parts, kind: Kind, plain: bool, mode: nat, size: int, data: string)

  predicate Root(h: Header) {
    h.parts == [""] || h.parts == ["."]
  }

  /** The path without empty and `.` parts. */
  function Clean(parts: seq<string>): (p: Path)
    ensures forall i :: 0 <= i < |p| ==> p[i] in parts && p[i] !in {"", "."}
    ensures forall i :: 0 <= i < |parts| && parts[i] !in {"", "."} ==> parts[i] in p
  {
    if parts == [] then []
    else (if parts[0] in {"", "."} then [] else [parts[0]]) + Clean(parts[1..])
  }

  predicate Escapes(h: Header) {
    || (|h.parts| > 1 && h.parts[0] == "")
    || exists i :: 0 <= i < |h.parts| && (h.parts[i] == ".." || '\\' in h.parts[i])
  }

  predicate ReservedPath(p: Path) {
    p == [] || p[0] == "lost+found" || ".edgelab" <= p[0]
  }

  function EntryOf(h: Header): Entry {
    Entry(Clean(h.parts), h.kind == Directory, h.mode, h.data)
  }

  /** What an entry must be whatever else the layer holds. */
  predicate HeaderOk(h: Header) {
    && !Escapes(h) && !ReservedPath(Clean(h.parts))
    && h.kind != Other && h.plain
    && 0 <= h.size <= EXPANDED_LIMIT && |h.data| == h.size
    && (Whiteout(EntryOf(h)) ==> h.kind == Regular && h.size == 0)
  }

  function EntriesOf(headers: seq<Header>): seq<Entry> {
    if headers == [] then []
    else
      var last := headers[|headers| - 1];
      EntriesOf(headers[..|headers| - 1]) + if Root(last) then [] else [EntryOf(last)]
  }

  function SizeOf(headers: seq<Header>): int {
    if headers == [] then 0
    else
      var last := headers[|headers| - 1];
      SizeOf(headers[..|headers| - 1]) + if Root(last) then 0 else last.size
  }

  function PathsOf(headers: seq<Header>): set<Path> {
    if headers == [] then {}
    else
      var last := headers[|headers| - 1];
      PathsOf(headers[..|headers| - 1]) + if Root(last) then {} else {Clean(last.parts)}
  }

  /** Whether the next header passes, with so many before it, these paths seen and this much expanded. */
  predicate Admissible(h: Header, count: nat, seen: set<Path>, total: int) {
    && count < ENTRY_LIMIT
    && if Root(h) then h.kind == Directory
       else HeaderOk(h) && Clean(h.parts) !in seen && total + h.size <= EXPANDED_LIMIT
  }

  /** Whether header `i` passes, after the ones before it and the layers below. */
  predicate Passes(headers: seq<Header>, i: nat, count: nat, total: int)
    requires i < |headers|
  {
    Admissible(headers[i], count + i, PathsOf(headers[..i]), total + SizeOf(headers[..i]))
  }

  predicate AllPass(headers: seq<Header>, count: nat, total: int) {
    forall i {:trigger Passes(headers, i, count, total)} :: 0 <= i < |headers| ==> Passes(headers, i, count, total)
  }

  method Check(h: Header, count: nat, seen: set<Path>, total: int) returns (ok: bool)
    requires total <= EXPANDED_LIMIT
    ensures ok <==> Admissible(h, count, seen, total)
    ensures ok && !Root(h) ==> total + h.size <= EXPANDED_LIMIT
  {
    ok := Admissible(h, count, seen, total);
  }

  predicate PassUpTo(headers: seq<Header>, i: nat, count: nat, total: int)
    requires i <= |headers|
  {
    forall j {:trigger Passes(headers, j, count, total)} :: 0 <= j < i ==> Passes(headers, j, count, total)
  }

  /** What the loop carries after `i` headers. */
  predicate ReadSoFar(headers: seq<Header>, i: nat, count: nat, total: int,
                      entries: seq<Entry>, seen: set<Path>, newTotal: int)
    requires i <= |headers|
  {
    && entries == EntriesOf(headers[..i]) && seen == PathsOf(headers[..i])
    && newTotal == total + SizeOf(headers[..i]) <= EXPANDED_LIMIT
    && PassUpTo(headers, i, count, total)
  }

  lemma ReadsOneMore(headers: seq<Header>, i: nat, count: nat, total: int,
                     entries: seq<Entry>, seen: set<Path>, newTotal: int)
    requires i < |headers| && ReadSoFar(headers, i, count, total, entries, seen, newTotal)
    requires Passes(headers, i, count, total)
    requires !Root(headers[i]) ==> newTotal + headers[i].size <= EXPANDED_LIMIT
    ensures var h := headers[i];
            if Root(h) then ReadSoFar(headers, i + 1, count, total, entries, seen, newTotal)
            else ReadSoFar(headers, i + 1, count, total,
                           entries + [EntryOf(h)], seen + {Clean(h.parts)}, newTotal + h.size)
  {
    Snoc(headers, i);
  }

  /** Reads one layer: refused exactly when some header does not pass. */
  method ReadLayer(headers: seq<Header>, count: nat, total: int) returns (ok: bool, entries: seq<Entry>, newTotal: int)
    requires total <= EXPANDED_LIMIT
    ensures ok <==> AllPass(headers, count, total)
    ensures ok ==> entries == EntriesOf(headers) && newTotal == total + SizeOf(headers) <= EXPANDED_LIMIT
  {
    entries, newTotal := [], total;
    var seen: set<Path> := {};
    for i := 0 to |headers|
      invariant ReadSoFar(headers, i, count, total, entries, seen, newTotal)
    {
      var h := headers[i];
      var passes := Check(h, count + i, seen, newTotal);
      assert Passes(headers, i, count, total) <==> passes;
      if !passes {
        return false, [], 0;
      }
      ReadsOneMore(headers, i, count, total, entries, seen, newTotal);
      if !Root(h) {
        seen := seen + {Clean(h.parts)};
        newTotal := newTotal + h.size;
        entries := entries + [EntryOf(h)];
      }
    }
    assert headers[..|headers|] == headers;
    return true, entries, newTotal;
  }

  lemma Snoc(headers: seq<Header>, i: nat)
    requires i < |headers|
    ensures var (before, next) := (headers[..i], headers[..i + 1]);
            && EntriesOf(next) == EntriesOf(before) + (if Root(headers[i]) then [] else [EntryOf(headers[i])])
            && SizeOf(next) == SizeOf(before) + (if Root(headers[i]) then 0 else headers[i].size)
            && PathsOf(next) == PathsOf(before) + (if Root(headers[i]) then {} else {Clean(headers[i].parts)})
  {
    assert headers[..i + 1][..i] == headers[..i];
  }

  /** Safe for extraction: below its root, no step outside, nothing reserved, whiteouts without contents. */
  predicate Safe(e: Entry) {
    && !ReservedPath(e.path)
    && (forall k :: 0 <= k < |e.path| ==> e.path[k] !in {"", ".", ".."})
    && (Whiteout(e) ==> !e.directory && e.data == "")
  }

  lemma EntryIsSafe(h: Header)
    requires HeaderOk(h)
    ensures Safe(EntryOf(h)) && EntryOf(h).path != []
  {
  }

  /** Entries read so far, with the paths seen. */
  ghost predicate EntriesOk(entries: seq<Entry>, seen: set<Path>) {
    && LayerOk(entries)
    && (forall i {:trigger entries[i]} :: 0 <= i < |entries| ==> Safe(entries[i]) && entries[i].path in seen)
  }

  lemma OneMoreEntry(entries: seq<Entry>, seen: set<Path>, e: Entry)
    requires EntriesOk(entries, seen) && Safe(e) && e.path != [] && e.path !in seen
    ensures EntriesOk(entries + [e], seen + {e.path})
  {
  }

  lemma {:induction false} ReadIsOk(headers: seq<Header>, count: nat, total: int)
    requires AllPass(headers, count, total)
    ensures EntriesOk(EntriesOf(headers), PathsOf(headers)) && |EntriesOf(headers)| <= |headers|
    decreases |headers|
  {
    if headers != [] {
      var n := |headers| - 1;
      var before := headers[..n];
      AllPassBefore(headers, count, total);
      ReadIsOk(before, count, total);
      Snoc(headers, n);
      assert headers[..n + 1] == headers && Passes(headers, n, count, total);
      if !Root(headers[n]) {
        EntryIsSafe(headers[n]);
        OneMoreEntry(EntriesOf(before), PathsOf(before), EntryOf(headers[n]));
      }
    }
  }

  /** What extraction relies on: distinct, safe paths. */
  lemma ReadEntriesAreOk(headers: seq<Header>, count: nat, total: int)
    requires AllPass(headers, count, total)
    ensures LayerOk(EntriesOf(headers)) && |EntriesOf(headers)| <= |headers|
    ensures forall i :: 0 <= i < |EntriesOf(headers)| ==> Safe(EntriesOf(headers)[i])
    ensures forall i :: 0 <= i < |EntriesOf(headers)| ==> EntriesOf(headers)[i].path in PathsOf(headers)
  {
    ReadIsOk(headers, count, total);
  }

  /** What a name may be, written out. */
  predicate PlainName(p: Path) {
    && p != [] && p[0] != "lost+found" && !(".edgelab" <= p[0])
    && forall k :: 0 <= k < |p| ==> p[k] != "" && p[k] != "." && p[k] != ".." && '\\' !in p[k]
  }

  /** A regular file or directory without anything special, relative to the root, and what it is read as. */
  predicate MadeFrom(h: Header, e: Entry) {
    && (h.kind == Regular || h.kind == Directory) && h.plain && |h.data| == h.size
    && (|h.parts| > 1 ==> h.parts[0] != "")
    && e == Entry(e.path, h.kind == Directory, h.mode, h.data)
    && e.path != [] && (".wh." <= e.path[|e.path| - 1] ==> !e.directory && e.data == "")
  }

  ghost predicate IsMade(headers: seq<Header>, e: Entry) {
    exists h :: h in headers && MadeFrom(h, e)
  }

  lemma EntryIsMade(h: Header)
    requires HeaderOk(h)
    ensures PlainName(EntryOf(h).path) && MadeFrom(h, EntryOf(h))
  {
    var p := Clean(h.parts);
    forall k | 0 <= k < |p| ensures p[k] != ".." && '\\' !in p[k] {
      var i :| 0 <= i < |h.parts| && h.parts[i] == p[k];
    }
  }

  /**
   Of what is read, each entry has a plain name and comes from a header of the layer with its
   mode and data; there are at most 4096 headers and 64 MiB of data in all.
   */
  lemma {:induction false} ReadNamesArePlain(headers: seq<Header>, count: nat, total: int)
    requires AllPass(headers, count, total) && total <= 67108864
    ensures headers != [] ==> count + |headers| <= 4096
    ensures total + SizeOf(headers) <= 67108864
    ensures forall e :: e in EntriesOf(headers) ==> PlainName(e.path) && IsMade(headers, e)
    decreases |headers|
  {
    if headers != [] {
      var n := |headers| - 1;
      var before := headers[..n];
      AllPassBefore(headers, count, total);
      ReadNamesArePlain(before, count, total);
      Snoc(headers, n);
      assert headers[..n + 1] == headers && Passes(headers, n, count, total);
      if !Root(headers[n]) {
        EntryIsMade(headers[n]);
      }
      forall e | e in EntriesOf(headers) ensures PlainName(e.path) && IsMade(headers, e) {
        if e in EntriesOf(before) {
          var h :| h in before && MadeFrom(h, e);
          assert h in headers;
        } else {
          assert headers[n] in headers && MadeFrom(headers[n], e);
        }
      }
    }
  }

  lemma AllPassBefore(headers: seq<Header>, count: nat, total: int)
    requires headers != [] && AllPass(headers, count, total)
    ensures AllPass(headers[..|headers| - 1], count, total)
  {
    var n := |headers| - 1;
    var before := headers[..n];
    forall i | 0 <= i < n ensures Passes(before, i, count, total) {
      assert Passes(headers, i, count, total) && before[..i] == headers[..i];
    }
  }

  /** Cleaning goes part by part, in order. */
  lemma {:induction false} CleanGoesByParts(a: seq<string>, b: seq<string>)
    ensures Clean(a + b) == Clean(a) + Clean(b)
    ensures |a| == 1 ==> Clean(a) == if a[0] == "" || a[0] == "." then [] else a
    decreases |a|
  {
    if a == [] {
      assert a + b == b;
    } else {
      assert (a + b)[1..] == a[1..] + b;
      CleanGoesByParts(a[1..], b);
    }
  }

  /** A header that is read, whatever else the layer holds: the root, or a plain file or directory. */
  predicate Readable(h: Header) {
    if h.parts == [""] || h.parts == ["."] then h.kind == Directory
    else
      && (|h.parts| > 1 ==> h.parts[0] != "")
      && (forall i :: 0 <= i < |h.parts| ==> h.parts[i] != ".." && '\\' !in h.parts[i])
      && var p := Clean(h.parts);
         && p != [] && p[0] != "lost+found" && !(".edgelab" <= p[0])
         && (h.kind == Regular || h.kind == Directory) && h.plain
         && 0 <= h.size <= 67108864 && |h.data| == h.size
         && (".wh." <= p[|p| - 1] ==> h.kind == Regular && h.size == 0)
  }

  lemma AdmissibleIsReadable(h: Header, count: nat, seen: set<Path>, total: int)
    ensures Admissible(h, count, seen, total) <==>
            && Readable(h) && count < 4096
            && (!Root(h) ==> Clean(h.parts) !in seen && total + h.size <= 67108864)
  {
    if !Root(h) {
      HeaderOkIsReadable(h);
    }
  }

  lemma StaysBelow(h: Header)
    ensures !Escapes(h) <==>
            && (|h.parts| > 1 ==> h.parts[0] != "")
            && forall i :: 0 <= i < |h.parts| ==> h.parts[i] != ".." && '\\' !in h.parts[i]
  {
  }

  lemma HeaderOkIsReadable(h: Header)
    requires !Root(h)
    ensures HeaderOk(h) <==> Readable(h)
  {
    StaysBelow(h);
    var p := Clean(h.parts);
    assert ReservedPath(p) <==> p == [] || p[0] == "lost+found" || ".edgelab" <= p[0];
    if p != [] {
      assert Whiteout(EntryOf(h)) <==> ".wh." <= p[|p| - 1];
    }
  }

  predicate Differ(g: Header, h: Header) {
    !Root(g) && !Root(h) ==> Clean(g.parts) != Clean(h.parts)
  }

  /** No path twice, other than the root. */
  predicate PathsDiffer(headers: seq<Header>) {
    forall i, j {:trigger Differ(headers[i], headers[j])} :: 0 <= i < j < |headers| ==> Differ(headers[i], headers[j])
  }

  predicate DiffersFromAll(headers: seq<Header>, h: Header) {
    forall i {:trigger Differ(headers[i], h)} :: 0 <= i < |headers| ==> Differ(headers[i], h)
  }

  lemma {:induction false} NewPathDiffers(headers: seq<Header>, h: Header)
    ensures (!Root(h) ==> Clean(h.parts) !in PathsOf(headers)) <==> DiffersFromAll(headers, h)
    decreases |headers|
  {
    if headers != [] {
      var n := |headers| - 1;
      NewPathDiffers(headers[..n], h);
      Snoc(headers, n);
      assert headers[..n + 1] == headers;
      DiffersSnoc(headers, h);
    }
  }

  lemma DiffersSnoc(headers: seq<Header>, h: Header)
    requires headers != []
    ensures var n := |headers| - 1;
            DiffersFromAll(headers, h) <==> DiffersFromAll(headers[..n], h) && Differ(headers[n], h)
  {
    var (before, last) := (headers[..|headers| - 1], headers[|headers| - 1]);
    assert headers == before + [last];
    OneMoreDiffers(before, last, h);
  }

  lemma OneMoreDiffers(before: seq<Header>, last: Header, h: Header)
    ensures DiffersFromAll(before + [last], h) <==> DiffersFromAll(before, h) && Differ(last, h)
  {
    var headers := before + [last];
    if DiffersFromAll(headers, h) {
      assert Differ(headers[|before|], h);
      forall i | 0 <= i < |before| ensures Differ(before[i], h) {
        assert Differ(headers[i], h);
      }
    }
  }

  lemma PathsDifferMore(before: seq<Header>, last: Header)
    requires PathsDiffer(before) && DiffersFromAll(before, last)
    ensures PathsDiffer(before + [last])
  {
    var headers := before + [last];
    forall i, j | 0 <= i < j < |headers| ensures Differ(headers[i], headers[j]) {
      if j < |before| {
        assert Differ(before[i], before[j]);
      } else {
        assert Differ(before[i], last);
      }
    }
  }

  lemma PathsDifferLess(before: seq<Header>, last: Header)
    requires PathsDiffer(before + [last])
    ensures PathsDiffer(before) && DiffersFromAll(before, last)
  {
    var headers := before + [last];
    forall i | 0 <= i < |before| ensures Differ(before[i], last) {
      assert Differ(headers[i], headers[|before|]);
    }
    forall i, j | 0 <= i < j < |before| ensures Differ(before[i], before[j]) {
      assert Differ(headers[i], headers[j]);
    }
  }

  lemma PathsDifferSnoc(headers: seq<Header>)
    requires headers != []
    ensures var n := |headers| - 1;
            PathsDiffer(headers) <==> PathsDiffer(headers[..n]) && DiffersFromAll(headers[..n], headers[n])
  {
    var (before, last) := (headers[..|headers| - 1], headers[|headers| - 1]);
    assert headers == before + [last];
    if PathsDiffer(headers) {
      PathsDifferLess(before, last);
    }
    if PathsDiffer(before) && DiffersFromAll(before, last) {
      PathsDifferMore(before, last);
    }
  }

  predicate AllReadable(headers: seq<Header>) {
    forall i {:trigger Readable(headers[i])} :: 0 <= i < |headers| ==> Readable(headers[i])
  }

  lemma AllReadableSnoc(headers: seq<Header>)
    requires headers != []
    ensures var n := |headers| - 1; AllReadable(headers) <==> AllReadable(headers[..n]) && Readable(headers[n])
  {
    var n := |headers| - 1;
    if AllReadable(headers[..n]) && Readable(headers[n]) {
      forall i | 0 <= i < |headers| ensures Readable(headers[i]) {
        assert i < n ==> Readable(headers[..n][i]);
      }
    }
    if AllReadable(headers) {
      assert Readable(headers[n]);
      forall i | 0 <= i < n ensures Readable(headers[..n][i]) {
        assert Readable(headers[i]);
      }
    }
  }

  /** What a whole layer must be to be read, after so many headers and so much data below it. */
  ghost predicate LayerReadable(headers: seq<Header>, count: nat, total: int) {
    && AllReadable(headers) && PathsDiffer(headers)
    && (headers != [] ==> count + |headers| <= 4096)
    && total + SizeOf(headers) <= 67108864
  }

  lemma AllPassSnoc(headers: seq<Header>, count: nat, total: int)
    requires headers != []
    ensures AllPass(headers, count, total) <==>
            AllPass(headers[..|headers| - 1], count, total) && Passes(headers, |headers| - 1, count, total)
  {
    var n := |headers| - 1;
    forall i | 0 <= i < n ensures Passes(headers[..n], i, count, total) <==> Passes(headers, i, count, total) {
      assert headers[..n][..i] == headers[..i];
    }
    if AllPass(headers, count, total) {
      AllPassBefore(headers, count, total);
      assert Passes(headers, n, count, total);
    }
    if AllPass(headers[..n], count, total) && Passes(headers, n, count, total) {
      forall i | 0 <= i < |headers| ensures Passes(headers, i, count, total) {
        assert i < n ==> Passes(headers[..n], i, count, total);
      }
    }
  }

  /** The last header, once those before it pass. */
  lemma LastPasses(headers: seq<Header>, count: nat, total: int)
    requires headers != []
    ensures var n := |headers| - 1;
            Passes(headers, n, count, total) <==>
              && Readable(headers[n]) && count + n < 4096 && DiffersFromAll(headers[..n], headers[n])
              && (!Root(headers[n]) ==> total + SizeOf(headers) <= 67108864)
  {
    var n := |headers| - 1;
    AdmissibleIsReadable(headers[n], count + n, PathsOf(headers[..n]), total + SizeOf(headers[..n]));
    NewPathDiffers(headers[..n], headers[n]);
    Snoc(headers, n);
    assert headers[..n + 1] == headers;
  }

  lemma LastAddsSize(headers: seq<Header>)
    requires headers != [] && Readable(headers[|headers| - 1])
    ensures SizeOf(headers[..|headers| - 1]) <= SizeOf(headers)
    ensures Root(headers[|headers| - 1]) ==> SizeOf(headers[..|headers| - 1]) == SizeOf(headers)
  {
    var n := |headers| - 1;
    Snoc(headers, n);
    assert headers[..n + 1] == headers;
  }

  /**
   Reading is exact: a layer is taken exactly if each header is the root or a plain file or
   directory below it, no path comes twice, and headers and data stay within 4096 and 64 MiB.
   */
  lemma {:induction false} ReadingIsExact(headers: seq<Header>, count: nat, total: int)
    requires total <= 67108864
    ensures AllPass(headers, count, total) <==> LayerReadable(headers, count, total)
    decreases |headers|
  {
    if headers != [] {
      var n := |headers| - 1;
      ReadingIsExact(headers[..n], count, total);
      AllPassSnoc(headers, count, total);
      LastPasses(headers, count, total);
      PathsDifferSnoc(headers);
      AllReadableSnoc(headers);
      if Readable(headers[n]) {
        LastAddsSize(headers);
      }
    }
  }

  function CountOf(layers: seq<seq<Header>>): nat {
    if layers == [] then 0 else CountOf(layers[..|layers| - 1]) + |layers[|layers| - 1]|
  }

  function TotalOf(layers: seq<seq<Header>>): int {
    if layers == [] then 0 else TotalOf(layers[..|layers| - 1]) + SizeOf(layers[|layers| - 1])
  }

  /** Layer `i` passes under what the layers below left of the common limits. */
  predicate LayerPasses(layers: seq<seq<Header>>, i: nat)
    requires i < |layers|
  {
    AllPass(layers[i], CountOf(layers[..i]), TotalOf(layers[..i]))
  }

  predicate IsRead(headers: seq<Header>, entries: seq<Entry>) {
    entries == EntriesOf(headers) && LayerOk(entries) && forall k :: 0 <= k < |entries| ==> Safe(entries[k])
  }

  lemma ReadIsRead(headers: seq<Header>, count: nat, total: int)
    requires AllPass(headers, count, total)
    ensures IsRead(headers, EntriesOf(headers))
  {
    ReadEntriesAreOk(headers, count, total);
  }

  lemma CountsSnoc(layers: seq<seq<Header>>, i: nat)
    requires i < |layers|
    ensures CountOf(layers[..i + 1]) == CountOf(layers[..i]) + |layers[i]|
    ensures TotalOf(layers[..i + 1]) == TotalOf(layers[..i]) + SizeOf(layers[i])
  {
    assert layers[..i + 1][..i] == layers[..i];
  }

  /** All headers of all layers, in order. */
  function Flat(layers: seq<seq<Header>>): seq<Header> {
    if layers == [] then [] else Flat(layers[..|layers| - 1]) + layers[|layers| - 1]
  }

  lemma {:induction false} SizesAdd(a: seq<Header>, b: seq<Header>)
    ensures SizeOf(a + b) == SizeOf(a) + SizeOf(b)
    decreases |b|
  {
    if b == [] {
      assert a + b == a;
    } else {
      var n := |b| - 1;
      SizesAdd(a, b[..n]);
      assert (a + b)[..|a + b| - 1] == a + b[..n];
    }
  }

  /** What is counted over the layers is their headers and the data of all of them. */
  lemma {:induction false} TotalsAreFlat(layers: seq<seq<Header>>)
    ensures CountOf(layers) == |Flat(layers)| && TotalOf(layers) == SizeOf(Flat(layers))
    decreases |layers|
  {
    if layers != [] {
      var n := |layers| - 1;
      TotalsAreFlat(layers[..n]);
      SizesAdd(Flat(layers[..n]), layers[n]);
    }
  }

  lemma {:induction false} SizesAreNatural(headers: seq<Header>)
    requires AllReadable(headers)
    ensures 0 <= SizeOf(headers)
    decreases |headers|
  {
    if headers != [] {
      AllReadableSnoc(headers);
      LastAddsSize(headers);
      SizesAreNatural(headers[..|headers| - 1]);
    }
  }

  predicate AllLayersPass(layers: seq<seq<Header>>) {
    forall i {:trigger LayerPasses(layers, i)} :: 0 <= i < |layers| ==> LayerPasses(layers, i)
  }

  predicate InForm(headers: seq<Header>) {
    AllReadable(headers) && PathsDiffer(headers)
  }

  predicate AllInForm(layers: seq<seq<Header>>) {
    forall i {:trigger InForm(layers[i])} :: 0 <= i < |layers| ==> InForm(layers[i])
  }

  lemma LayersSnoc(layers: seq<seq<Header>>)
    requires layers != []
    ensures var n := |layers| - 1;
            && (AllLayersPass(layers) <==> AllLayersPass(layers[..n]) && LayerPasses(layers, n))
            && (AllInForm(layers) <==> AllInForm(layers[..n]) && InForm(layers[n]))
  {
    var n := |layers| - 1;
    forall i | 0 <= i < n ensures LayerPasses(layers[..n], i) <==> LayerPasses(layers, i) {
      assert layers[..n][..i] == layers[..i];
    }
    if AllLayersPass(layers) {
      forall i | 0 <= i < n ensures LayerPasses(layers[..n], i) {
        assert LayerPasses(layers, i);
      }
    }
    if AllLayersPass(layers[..n]) && LayerPasses(layers, n) {
      forall i | 0 <= i < |layers| ensures LayerPasses(layers, i) {
        assert i < n ==> LayerPasses(layers[..n], i);
      }
    }
    if AllInForm(layers) {
      forall i | 0 <= i < n ensures InForm(layers[..n][i]) {
        assert InForm(layers[i]);
      }
    }
    if AllInForm(layers[..n]) && InForm(layers[n]) {
      forall i | 0 <= i < |layers| ensures InForm(layers[i]) {
        assert i < n ==> InForm(layers[..n][i]);
      }
    }
  }

  lemma LastLayer(layers: seq<seq<Header>>)
    requires layers != [] && TotalOf(layers[..|layers| - 1]) <= 67108864 && CountOf(layers[..|layers| - 1]) <= 4096
    ensures LayerPasses(layers, |layers| - 1) <==>
            InForm(layers[|layers| - 1]) && CountOf(layers) <= 4096 && TotalOf(layers) <= 67108864
  {
    var n := |layers| - 1;
    ReadingIsExact(layers[n], CountOf(layers[..n]), TotalOf(layers[..n]));
    CountsSnoc(layers, n);
    assert layers[..n + 1] == layers;
  }

  /**
   Reading a whole image is exact: it is taken exactly if the headers of each layer are in
   form, and those of all layers together keep to 4096 headers and 64 MiB.
   */
  lemma {:induction false} ImageReadingIsExact(layers: seq<seq<Header>>)
    ensures AllLayersPass(layers) <==>
            AllInForm(layers) && |Flat(layers)| <= 4096 && SizeOf(Flat(layers)) <= 67108864
    decreases |layers|
  {
    TotalsAreFlat(layers);
    if layers != [] {
      var n := |layers| - 1;
      ImageReadingIsExact(layers[..n]);
      TotalsAreFlat(layers[..n]);
      LayersSnoc(layers);
      CountsSnoc(layers, n);
      assert layers[..n + 1] == layers;
      if InForm(layers[n]) {
        SizesAreNatural(layers[n]);
      }
      if TotalOf(layers[..n]) <= 67108864 && CountOf(layers[..n]) <= 4096 {
        LastLayer(layers);
      }
    }
  }

  /** The loop over the layers, count and total carried along. */
  method ReadEach(layers: seq<seq<Header>>) returns (ok: bool, read: seq<seq<Entry>>)
    ensures ok <==> AllLayersPass(layers)
    ensures ok ==> |read| == |layers| && forall i {:trigger read[i]} :: 0 <= i < |layers| ==> IsRead(layers[i], read[i])
  {
    read := [];
    var count: nat, total := 0, 0;
    for i := 0 to |layers|
      invariant |read| == i && total <= EXPANDED_LIMIT
      invariant count == CountOf(layers[..i]) && total == TotalOf(layers[..i])
      invariant forall j {:trigger LayerPasses(layers, j)} :: 0 <= j < i ==> LayerPasses(layers, j)
      invariant forall j {:trigger read[j]} :: 0 <= j < i ==> IsRead(layers[j], read[j])
    {
      var entries, sum;
      ok, entries, sum := ReadLayer(layers[i], count, total);
      assert ok <==> LayerPasses(layers, i);
      if !ok {
        return;
      }
      ReadIsRead(layers[i], count, total);
      CountsSnoc(layers, i);
      count, total := count + |layers[i]|, sum;
      read := read + [entries];
    }
    return true, read;
  }

  /** Reads all layers under common limits; what extraction demands of them then holds. */
  method ReadLayers(layers: seq<seq<Header>>) returns (ok: bool, read: seq<seq<Entry>>)
    ensures ok <==> AllInForm(layers) && |Flat(layers)| <= 4096 && SizeOf(Flat(layers)) <= 67108864
    ensures ok ==> |read| == |layers| && forall i {:trigger read[i]} :: 0 <= i < |layers| ==> IsRead(layers[i], read[i])
  {
    ImageReadingIsExact(layers);
    ok, read := ReadEach(layers);
  }
}
