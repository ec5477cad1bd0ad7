/**
 The JSON text of a state, as it is saved and sent, and its length. The 64 digits of a
 SHA-256 hash are stood for by letters, since hashes are not computed here.
 */
module Json {
  import opened Wrappers
  import opened Net
  import opened History
  import opened Ordered
  import opened Routing
  import opened Budget
  import opened Soundness
  import opened Router
  import opened RouterLaws

  /// Numbers and addresses

  function DecimalText(n: nat): (t: string)
    ensures |t| == Decimal(n)
  {
    if n < 10 then ["0123456789"[n]] else DecimalText(n / 10) + ["0123456789"[n % 10]]
  }

  function HexDigits(n: nat): (t: string)
    ensures n < 0x10 ==> |t| == 1
    ensures 0x10 <= n < 0x100 ==> |t| == 2
    ensures 0x100 <= n < 0x1000 ==> |t| == 3
    ensures 0x1000 <= n < 0x1_0000 ==> |t| == 4
  {
    if n < 0x10 then ["0123456789abcdef"[n]] else HexDigits(n / 0x10) + ["0123456789abcdef"[n % 0x10]]
  }

  function V4Text(a: Byte, b: Byte, c: Byte, d: Byte): string {
    DecimalText(a) + "." + DecimalText(b) + "." + DecimalText(c) + "." + DecimalText(d)
  }

  function GroupsText(g: seq<U16>): (t: string)
    ensures |t| == GroupsLength(g)
  {
    if |g| == 0 then ""
    else if |g| == 1 then HexDigits(g[0])
    else HexDigits(g[0]) + ":" + GroupsText(g[1..])
  }

  /** The first longest run of two or more zero groups is left out. */
  function V6Text(g: Groups): (t: string)
    ensures |t| == V6Length(g)
  {
    if Mapped(g) then "::ffff:" + V4Text(g[6] / 256, g[6] % 256, g[7] / 256, g[7] % 256)
    else
      var (start, length) := LongestZeros(g, 0, 0, 0);
      if length < 2 then GroupsText(g)
      else GroupsText(g[..start]) + "::" + GroupsText(g[start + length..])
  }

  function EndpointText(e: Endpoint): (t: string)
    ensures |t| == e.TextLength()
  {
    match e
    case V4(a, b, c, d, port) => V4Text(a, b, c, d) + ":" + DecimalText(port)
    case V6(g, scope, port) =>
      "[" + V6Text(g) + (if scope == 0 then "" else "%" + DecimalText(scope)) + "]:" + DecimalText(port)
  }

  /// Values

  function QuotedText(s: string): (t: string)
    ensures |t| == Quoted(s)
  {
    "\"" + s + "\""
  }

  function FlagText(b: bool): (t: string)
    ensures |t| == Flag(b)
  {
    if b then "true" else "false"
  }

  function OptionalText(o: Option<string>): (t: string)
    ensures |t| == Optional(o)
  {
    if o.None? then "null" else QuotedText(o.value)
  }

  function Member(name: string, value: string): (t: string)
    ensures |t| == Field(name, |value|)
  {
    QuotedText(name) + ":" + value
  }

  function Members(m: map<string, string>): string
    decreases |m|
  {
    if m == map[] then ""
    else
      var k := Least(m.Keys);
      var rest := m - {k};
      Member(k, m[k]) + if rest == map[] then "" else "," + Members(rest)
  }

  /** An object whose keys are data, in their order. */
  function ObjectText(m: map<string, string>): string {
    "{" + Members(m) + "}"
  }

  function DigestText(d: Digest): string {
    if d.Text? then d.text else Letters(64)
  }

  function RecordText(r: Record): (t: string)
    ensures |t| == RecordSize(r)
  {
    "{" + Member("id", QuotedText(r.id)) + "," + Member("app", QuotedText(r.app)) + ","
    + Member("endpoint", QuotedText(EndpointText(r.endpoint))) + "," + Member("revision", DecimalText(r.revision))
    + "," + Member("deleted", FlagText(r.deleted)) + "}"
  }

  function RecordTexts(records: Records): map<string, string> {
    map id | id in records :: RecordText(records[id])
  }

  /** Everything before the records. */
  function SnapshotHead(n: Snapshot): (t: string)
    ensures |t| == 4 + Field("schema", Decimal(n.schema)) + Field("owner", Quoted(n.owner))
                   + Field("incarnation", Decimal(n.incarnation)) + Field("revision", Decimal(n.revision))
  {
    Member("schema", DecimalText(n.schema)) + "," + Member("owner", QuotedText(n.owner)) + ","
    + Member("incarnation", DecimalText(n.incarnation)) + "," + Member("revision", DecimalText(n.revision)) + ","
  }

  function SnapshotText(n: Snapshot): (t: string)
    ensures |t| == SnapshotSize(n)
  {
    RecordsHaveLengths(n.records);
    ObjectHasLength(RecordTexts(n.records));
    "{" + SnapshotHead(n) + Member("records", ObjectText(RecordTexts(n.records))) + "}"
  }

  function RecoveryText(r: Option<Recovery>): (t: string)
    ensures |t| == RecoverySize(r)
  {
    if r.None? then "null"
    else
      "{" + Member("operation", QuotedText(r.value.operation)) + ","
      + Member("digest", QuotedText(DigestText(r.value.digest))) + "}"
  }

  /** Everything after the snapshot. */
  function OwnerTail(o: Owner): (t: string)
    ensures |t| == 5 + Field("reconciled_ms", Decimal(o.reconciledMs)) + Field("stale", Flag(o.stale))
                   + Field("frozen_by", Optional(o.frozenBy)) + Field("credential_hash", Optional(o.credentialHash))
                   + Field("recovery", RecoverySize(o.recovery))
  {
    "," + Member("reconciled_ms", DecimalText(o.reconciledMs)) + "," + Member("stale", FlagText(o.stale))
    + "," + Member("frozen_by", OptionalText(o.frozenBy))
    + "," + Member("credential_hash", OptionalText(o.credentialHash))
    + "," + Member("recovery", RecoveryText(o.recovery))
  }

  function OwnerText(o: Owner): (t: string)
    ensures |t| == OwnerSize(o)
  {
    "{" + Member("snapshot", SnapshotText(o.snapshot)) + OwnerTail(o) + "}"
  }

  function OwnerTexts(owners: map<string, Owner>): (m: map<string, string>)
    ensures m.Keys == owners.Keys && forall id :: id in owners ==> |m[id]| == OwnerSize(owners[id])
  {
    map id | id in owners :: OwnerText(owners[id])
  }

  function StateText(s: State): string {
    "{" + Member("generation", DecimalText(s.generation)) + ","
    + Member("owners", ObjectText(OwnerTexts(s.owners))) + "}"
  }

  /// Lengths

  function Lengths(m: map<string, string>): map<string, nat> {
    map k | k in m :: |m[k]|
  }

  lemma {:induction false} MembersHaveLength(m: map<string, string>)
    requires m != map[]
    ensures |Members(m)| + 1 == Sum(TableFields(Lengths(m)))
    decreases |m|
  {
    var k := Least(m.Keys);
    var rest := m - {k};
    FieldsSplit(m, k);
    if rest != map[] {
      MembersHaveLength(rest);
    } else {
      assert TableFields(Lengths(rest)) == map[];
    }
  }

  lemma FieldsSplit(m: map<string, string>, k: string)
    requires k in m
    ensures Sum(TableFields(Lengths(m))) == Field(k, |m[k]|) + 1 + Sum(TableFields(Lengths(m - {k})))
  {
    var fields := TableFields(Lengths(m));
    SumSplits(fields, k);
    assert fields - {k} == TableFields(Lengths(m - {k}));
  }

  lemma ObjectHasLength(m: map<string, string>)
    ensures |ObjectText(m)| == Table(Lengths(m))
  {
    if m == map[] {
      assert Lengths(m) == map[];
    } else {
      var k :| k in m;
      assert k in Lengths(m);
      MembersHaveLength(m);
    }
  }

  lemma RecordsHaveLengths(records: Records)
    ensures Lengths(RecordTexts(records)) == RecordSizes(records)
  {
    EqualMaps(Lengths(RecordTexts(records)), RecordSizes(records));
  }

  lemma OwnersHaveLengths(owners: map<string, Owner>)
    ensures Lengths(OwnerTexts(owners)) == OwnerSizes(owners)
  {
    EqualMaps(Lengths(OwnerTexts(owners)), OwnerSizes(owners));
  }

  /** What is measured is the text: the encoding of every state is exactly as long as the size function says. */
  lemma StateHasLength(s: State)
    ensures |StateText(s)| == StateSize(s)
  {
    OwnersHaveLengths(s.owners);
    ObjectHasLength(OwnerTexts(s.owners));
  }

  /**
   What admission promises, of the text itself: a state is admitted exactly if every text
   that revisions, deletions and fences can turn its own into stays within the limit.
   */
  lemma AdmittedTextsFit(s: State, limit: nat)
    requires forall id :: id in s.owners ==> s.owners[id].snapshot.owner == id
    ensures Fits(s, limit) <==>
            forall t :: Within(t, s) && OwnersMetadataOk(t) ==> |StateText(t)| <= limit
  {
    FitsIsExact(s, limit);
    forall t ensures |StateText(t)| == StateSize(t) {
      StateHasLength(t);
    }
  }

  /** Every state that a run reaches has a text of at most 16 MiB. */
  lemma EveryTextIsBounded(config: Config, steps: seq<Step>)
    ensures |StateText(Run(config, EMPTY, steps))| <= 16777216
  {
    EncodingIsBounded(config, steps);
    StateHasLength(Run(config, EMPTY, steps));
  }

  /**
   The last condition on a publication, of texts: there is room for it exactly if nothing
   that revisions, deletions and fences can make of the state with it is longer than 16 MiB.
   */
  lemma AffordableIsExact(s: State, n: Snapshot, now: U64)
    requires s.generation < U64_MAX && forall id :: id in s.owners ==> s.owners[id].snapshot.owner == id
    ensures Affordable(s, n, now) <==>
            forall t :: Within(t, Routing.Commit(s, n, now)) && OwnersMetadataOk(t) ==> |StateText(t)| <= 16777216
  {
    var next := Routing.Commit(s, n, now);
    FitsIsReserve(next, 16777216);
    AdmittedTextsFit(next, 16777216);
  }
}
