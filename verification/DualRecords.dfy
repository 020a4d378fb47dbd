// Dual records: the same device listed under its own MAC and again under composite keys that
// put it in a service-account family and in a manufacturer-rollup family.
module DualRecords {
  import opened Vocabulary

  const SERVICE_ACCOUNT_SUFFIX := ".service_account"
  const MFG_ROLLUP_SUFFIX := "-MFG"
  const SA_KEY_SUFFIX := "#sa"
  const MFG_KEY_SUFFIX := "#mfg"

  predicate EndsWith(s: string, suffix: string) {
    |s| >= |suffix| && s[|s| - |suffix|..] == suffix
  }

  predicate IsSaRecordKey(key: string) {
    EndsWith(key, SA_KEY_SUFFIX)
  }

  predicate IsMfgRecordKey(key: string) {
    EndsWith(key, MFG_KEY_SUFFIX)
  }

  predicate IsVirtualKey(key: string) {
    IsSaRecordKey(key) || IsMfgRecordKey(key)
  }

  function UnderlyingMac(key: string): string {
    if IsSaRecordKey(key) then key[..|key| - |SA_KEY_SUFFIX|] else
    if IsMfgRecordKey(key) then key[..|key| - |MFG_KEY_SUFFIX|] else key
  }

  predicate IsServiceAccountFamily(name: string) {
    name != "" && EndsWith(name, SERVICE_ACCOUNT_SUFFIX)
  }

  predicate IsMfgRollupFamily(name: string) {
    name != "" && EndsWith(name, MFG_ROLLUP_SUFFIX)
  }

  datatype Kind = Primary | ServiceAccount | MfgRollup

  function KeyKind(key: string): Kind {
    if IsSaRecordKey(key) then ServiceAccount else if IsMfgRecordKey(key) then MfgRollup else Primary
  }

  function FamilyKind(name: string): Kind {
    if IsMfgRollupFamily(name) then MfgRollup else if IsServiceAccountFamily(name) then ServiceAccount else Primary
  }

  function RecordKey(kind: Kind, mac: string): string {
    match kind
    case Primary => mac
    case ServiceAccount => mac + SA_KEY_SUFFIX
    case MfgRollup => mac + MFG_KEY_SUFFIX
  }

  lemma SuffixIsRecognised(s: string, suffix: string)
    ensures EndsWith(s + suffix, suffix)
    ensures (s + suffix)[..|s + suffix| - |suffix|] == s
  {
  }

  lemma LastCharacter(s: string, suffix: string)
    requires suffix != "" && EndsWith(s, suffix)
    ensures s[|s| - 1] == suffix[|suffix| - 1]
  {
    assert s[|s| - |suffix|..][|suffix| - 1] == s[|s| - 1];
  }

  lemma SuffixStart(s: string, suffix: string)
    requires suffix != "" && EndsWith(s, suffix)
    ensures s[|s| - |suffix|] == suffix[0]
  {
    assert s[|s| - |suffix|..][0] == s[|s| - |suffix|];
  }

  lemma EndingsDiffer(s: string, suffix: string, other: string)
    requires suffix != "" && other != "" && suffix[|suffix| - 1] != other[|other| - 1]
    ensures !EndsWith(s + suffix, other)
  {
    if EndsWith(s + suffix, other) {
      LastCharacter(s + suffix, other);
    }
  }

  lemma SuffixesDiffer(s: string)
    ensures !IsSaRecordKey(s + MFG_KEY_SUFFIX) && !IsMfgRecordKey(s + SA_KEY_SUFFIX)
    ensures !IsMfgRollupFamily(s + SERVICE_ACCOUNT_SUFFIX) && !IsServiceAccountFamily(s + MFG_ROLLUP_SUFFIX)
  {
    EndingsDiffer(s, MFG_KEY_SUFFIX, SA_KEY_SUFFIX);
    EndingsDiffer(s, SA_KEY_SUFFIX, MFG_KEY_SUFFIX);
    EndingsDiffer(s, SERVICE_ACCOUNT_SUFFIX, MFG_ROLLUP_SUFFIX);
    EndingsDiffer(s, MFG_ROLLUP_SUFFIX, SERVICE_ACCOUNT_SUFFIX);
  }

  lemma VirtualFamiliesDiffer(family: string)
    ensures FamilyKind(family) == ServiceAccount <==> IsServiceAccountFamily(family)
    ensures FamilyKind(family) == MfgRollup <==> IsMfgRollupFamily(family)
  {
    if IsServiceAccountFamily(family) && IsMfgRollupFamily(family) {
      LastCharacter(family, SERVICE_ACCOUNT_SUFFIX);
      LastCharacter(family, MFG_ROLLUP_SUFFIX);
    }
  }

  lemma SplitKeyRejoins(key: string)
    ensures RecordKey(KeyKind(key), UnderlyingMac(key)) == key
  {
    match KeyKind(key)
    case Primary =>
    case ServiceAccount => assert key == key[..|key| - 3] + key[|key| - 3..];
    case MfgRollup => assert key == key[..|key| - 4] + key[|key| - 4..];
  }

  // Building a key and taking it apart again are inverse, so keys of different devices or of
  // different kinds never collide.
  lemma KeysRoundTrip(kind: Kind, mac: string)
    ensures kind != Primary || !IsVirtualKey(mac) ==>
      KeyKind(RecordKey(kind, mac)) == kind && UnderlyingMac(RecordKey(kind, mac)) == mac
    ensures RecordKey(KeyKind(mac), UnderlyingMac(mac)) == mac
  {
    SuffixIsRecognised(mac, SA_KEY_SUFFIX);
    SuffixIsRecognised(mac, MFG_KEY_SUFFIX);
    SuffixesDiffer(mac);
    SplitKeyRejoins(mac);
  }

  ghost predicate Ends(s: string, ending: string, n: nat) {
    |s| >= n && s[|s| - n..] == ending
  }

  // The kinds by the endings themselves.
  lemma KeyKindByEnding(key: string)
    ensures KeyKind(key) == ServiceAccount <==> Ends(key, "#sa", 3)
    ensures KeyKind(key) == MfgRollup <==> Ends(key, "#mfg", 4)
    ensures KeyKind(key) == ServiceAccount ==> UnderlyingMac(key) == key[..|key| - 3]
    ensures KeyKind(key) == MfgRollup ==> UnderlyingMac(key) == key[..|key| - 4]
    ensures KeyKind(key) == Primary ==> UnderlyingMac(key) == key
  {
    if IsSaRecordKey(key) && IsMfgRecordKey(key) {
      LastCharacter(key, SA_KEY_SUFFIX);
      LastCharacter(key, MFG_KEY_SUFFIX);
    }
  }

  lemma FamilyKindByEnding(family: string)
    ensures FamilyKind(family) == ServiceAccount <==> Ends(family, ".service_account", 16)
    ensures FamilyKind(family) == MfgRollup <==> Ends(family, "-MFG", 4)
  {
    VirtualFamiliesDiffer(family);
    assert |SERVICE_ACCOUNT_SUFFIX| == 16 && |MFG_ROLLUP_SUFFIX| == 4;
  }

  // One device as the event pass leaves it. `profile` stands for what its records share: the
  // two vectors, the event weight, the random-MAC flag and the last user name.
  datatype Client = Client(
    mac: string, eventCount: nat, family: string, saLabel: Option<string>, manufacturer: string, profile: string)

  datatype Record = Record(key: string, family: string, eventCount: nat, profile: string)

  function PrimaryRecord(c: Client): Record {
    Record(c.mac, c.family, c.eventCount, c.profile)
  }

  function AccountRecord(c: Client): Record
    requires c.saLabel.Some?
  {
    Record(RecordKey(ServiceAccount, c.mac), c.saLabel.value + SERVICE_ACCOUNT_SUFFIX, c.eventCount, c.profile)
  }

  function RollupRecord(c: Client): Record {
    Record(RecordKey(MfgRollup, c.mac), c.manufacturer + MFG_ROLLUP_SUFFIX, c.eventCount, c.profile)
  }

  // The dictionary entries one device contributes, in insertion order.
  function Emitted(c: Client, minEvents: int, qualifying: set<string>): seq<Record> {
    if c.eventCount < minEvents then [] else
    [PrimaryRecord(c)]
    + (if c.saLabel.Some? then [AccountRecord(c)] else [])
    + (if c.manufacturer != "" && c.manufacturer in qualifying then [RollupRecord(c)] else [])
  }

  function Emission(minEvents: int, qualifying: set<string>): Client -> seq<Record> {
    (c: Client) => Emitted(c, minEvents, qualifying)
  }

  function EmittedBy(emit: Client -> seq<Record>, clients: seq<Client>): seq<Record> {
    if clients == [] then [] else EmittedBy(emit, clients[..|clients| - 1]) + emit(clients[|clients| - 1])
  }

  function AllEmitted(clients: seq<Client>, minEvents: int, qualifying: set<string>): seq<Record> {
    EmittedBy(Emission(minEvents, qualifying), clients)
  }

  // What the loop body adds for one device, whatever the dictionary holds.
  method EmitClient(c: Client, minEvents: int, qualifying: set<string>, features: seq<Record>) returns (next: seq<Record>)
    ensures next == features + Emitted(c, minEvents, qualifying)
  {
    next := features;
    if c.eventCount < minEvents {
      return;
    }
    var added := [Record(c.mac, c.family, c.eventCount, c.profile)];
    if c.saLabel.Some? {
      added := added + [Record(c.mac + SA_KEY_SUFFIX, c.saLabel.value + SERVICE_ACCOUNT_SUFFIX, c.eventCount, c.profile)];
    }
    if c.manufacturer != "" && c.manufacturer in qualifying {
      added := added + [Record(c.mac + MFG_KEY_SUFFIX, c.manufacturer + MFG_ROLLUP_SUFFIX, c.eventCount, c.profile)];
    }
    next := features + added;
  }

  ghost predicate EmittedBySome(emit: Client -> seq<Record>, clients: seq<Client>, r: Record) {
    exists c :: c in clients && r in emit(c)
  }

  lemma SourceAppended(emit: Client -> seq<Record>, clients: seq<Client>, c: Client, r: Record)
    ensures EmittedBySome(emit, clients + [c], r) <==> EmittedBySome(emit, clients, r) || r in emit(c)
  {
    assert c in clients + [c];
    forall d ensures d in clients + [c] <==> d in clients || d == c {
    }
  }

  lemma {:induction false} EmissionSources(emit: Client -> seq<Record>, clients: seq<Client>, r: Record)
    ensures r in EmittedBy(emit, clients) <==> EmittedBySome(emit, clients, r)
  {
    if clients != [] {
      var init, last := clients[..|clients| - 1], clients[|clients| - 1];
      EmissionSources(emit, init, r);
      SourceAppended(emit, init, last, r);
      assert clients == init + [last];
    }
  }

  // One of the records the device c is listed under: its own, that of its service account if it
  // has a label, that of its manufacturer if it has one and enough devices share it.
  ghost predicate ListsDevice(r: Record, c: Client, qualifying: set<string>) {
    || r == Record(c.mac, c.family, c.eventCount, c.profile)
    || (c.saLabel.Some?
        && r == Record(c.mac + "#sa", c.saLabel.value + ".service_account", c.eventCount, c.profile))
    || (c.manufacturer != "" && c.manufacturer in qualifying
        && r == Record(c.mac + "#mfg", c.manufacturer + "-MFG", c.eventCount, c.profile))
  }

  ghost predicate ListsSomeDevice(r: Record, clients: seq<Client>, minEvents: int, qualifying: set<string>) {
    exists c :: c in clients && c.eventCount >= minEvents && ListsDevice(r, c, qualifying)
  }

  lemma EmittedByField(c: Client, minEvents: int, qualifying: set<string>, r: Record)
    ensures r in Emitted(c, minEvents, qualifying) <==> c.eventCount >= minEvents && ListsDevice(r, c, qualifying)
  {
    assert PrimaryRecord(c) in [PrimaryRecord(c)];
    assert RollupRecord(c) in [RollupRecord(c)];
  }

  lemma AllEmittedByField(clients: seq<Client>, minEvents: int, qualifying: set<string>)
    ensures forall r :: r in AllEmitted(clients, minEvents, qualifying) <==> ListsSomeDevice(r, clients, minEvents, qualifying)
  {
    forall r ensures r in AllEmitted(clients, minEvents, qualifying) <==> ListsSomeDevice(r, clients, minEvents, qualifying) {
      EmissionSources(Emission(minEvents, qualifying), clients, r);
      forall c ensures r in Emission(minEvents, qualifying)(c) <==> c.eventCount >= minEvents && ListsDevice(r, c, qualifying) {
        EmittedByField(c, minEvents, qualifying, r);
      }
    }
  }

  // The emission loop. The dictionary is kept as its entries in insertion order; EmissionIsSound
  // shows that no key is assigned twice.
  method BuildRecords(clients: seq<Client>, minEvents: int, qualifying: set<string>) returns (features: seq<Record>)
    ensures features == AllEmitted(clients, minEvents, qualifying)
    ensures forall r :: r in features <==> ListsSomeDevice(r, clients, minEvents, qualifying)
  {
    AllEmittedByField(clients, minEvents, qualifying);
    features := [];
    for i := 0 to |clients|
      invariant features == AllEmitted(clients[..i], minEvents, qualifying)
    {
      assert clients[..i + 1][..i] == clients[..i];
      features := EmitClient(clients[i], minEvents, qualifying, features);
    }
    assert clients[..|clients|] == clients;
  }

  ghost predicate DistinctKeys(records: seq<Record>) {
    forall i, j :: 0 <= i < j < |records| ==> records[i].key != records[j].key
  }

  // The record of the device itself, with the same vectors and event count.
  predicate IsPrimaryOf(p: Record, r: Record) {
    p.key == UnderlyingMac(r.key) && !IsVirtualKey(p.key) && p.profile == r.profile && p.eventCount == r.eventCount
  }

  ghost predicate HasPrimary(records: seq<Record>, r: Record) {
    exists p :: p in records && IsPrimaryOf(p, r)
  }

  // What scoring relies on: no key twice, every record's device is listed itself, and the kind
  // of a family is the kind of its members' keys.
  ghost predicate Dual(records: seq<Record>) {
    && DistinctKeys(records)
    && (forall r {:trigger HasPrimary(records, r)} :: r in records ==> HasPrimary(records, r))
    && (forall r :: r in records ==> FamilyKind(r.family) == KeyKind(r.key))
  }

  // MACs are distinct and carry no key suffix.
  ghost predicate PlainMacs(clients: seq<Client>) {
    && (forall i, j :: 0 <= i < j < |clients| ==> clients[i].mac != clients[j].mac)
    && (forall c :: c in clients ==> !IsVirtualKey(c.mac))
  }

  // A record of this device; only its primary one can have a family of another kind than its key.
  ghost predicate RecordOf(c: Client, r: Record) {
    && UnderlyingMac(r.key) == c.mac && IsPrimaryOf(PrimaryRecord(c), r)
    && (if KeyKind(r.key) == Primary then r == PrimaryRecord(c) else FamilyKind(r.family) == KeyKind(r.key))
  }

  lemma PrimaryIsRecordOf(c: Client)
    requires !IsVirtualKey(c.mac)
    ensures RecordOf(c, PrimaryRecord(c)) && KeyKind(c.mac) == Primary
  {
    KeysRoundTrip(Primary, c.mac);
  }

  lemma AccountIsRecordOf(c: Client)
    requires !IsVirtualKey(c.mac) && c.saLabel.Some?
    ensures RecordOf(c, AccountRecord(c)) && KeyKind(AccountRecord(c).key) == ServiceAccount
  {
    KeysRoundTrip(ServiceAccount, c.mac);
    SuffixIsRecognised(c.saLabel.value, SERVICE_ACCOUNT_SUFFIX);
    SuffixesDiffer(c.saLabel.value);
  }

  lemma RollupIsRecordOf(c: Client)
    requires !IsVirtualKey(c.mac)
    ensures RecordOf(c, RollupRecord(c)) && KeyKind(RollupRecord(c).key) == MfgRollup
  {
    KeysRoundTrip(MfgRollup, c.mac);
    SuffixIsRecognised(c.manufacturer, MFG_ROLLUP_SUFFIX);
  }

  lemma EmittedRecords(c: Client, minEvents: int, qualifying: set<string>)
    requires !IsVirtualKey(c.mac)
    ensures DistinctKeys(Emitted(c, minEvents, qualifying))
    ensures forall r :: r in Emitted(c, minEvents, qualifying) ==> RecordOf(c, r)
    ensures PrimaryRecord(c) in Emitted(c, minEvents, qualifying) <==> Emitted(c, minEvents, qualifying) != []
  {
    PrimaryIsRecordOf(c);
    RollupIsRecordOf(c);
    if c.saLabel.Some? {
      AccountIsRecordOf(c);
    }
  }

  ghost predicate ComesFrom(clients: seq<Client>, r: Record) {
    exists c :: c in clients && RecordOf(c, r)
  }

  lemma EmittedComesFrom(clients: seq<Client>, minEvents: int, qualifying: set<string>, r: Record)
    requires PlainMacs(clients) && r in AllEmitted(clients, minEvents, qualifying)
    ensures ComesFrom(clients, r) && HasPrimary(AllEmitted(clients, minEvents, qualifying), r)
  {
    EmissionSources(Emission(minEvents, qualifying), clients, r);
    var c :| c in clients && r in Emitted(c, minEvents, qualifying);
    EmittedRecords(c, minEvents, qualifying);
    assert RecordOf(c, r);
    EmissionSources(Emission(minEvents, qualifying), clients, PrimaryRecord(c));
  }

  lemma JoinedKeysDiffer(a: seq<Record>, b: seq<Record>, mac: string)
    requires DistinctKeys(a) && DistinctKeys(b)
    requires forall r :: r in a ==> UnderlyingMac(r.key) != mac
    requires forall r :: r in b ==> UnderlyingMac(r.key) == mac
    ensures DistinctKeys(a + b)
  {
    forall i, j | 0 <= i < j < |a + b| ensures (a + b)[i].key != (a + b)[j].key {
      if i < |a| <= j {
        assert a[i] in a && b[j - |a|] in b;
      }
    }
  }

  lemma {:induction false} EmittedKeysDiffer(clients: seq<Client>, minEvents: int, qualifying: set<string>)
    requires PlainMacs(clients)
    ensures DistinctKeys(AllEmitted(clients, minEvents, qualifying))
  {
    if clients != [] {
      var init, last := clients[..|clients| - 1], clients[|clients| - 1];
      assert last in clients && forall c :: c in init ==> c in clients;
      EmittedKeysDiffer(init, minEvents, qualifying);
      var earlier, added := AllEmitted(init, minEvents, qualifying), Emitted(last, minEvents, qualifying);
      EmittedRecords(last, minEvents, qualifying);
      forall r | r in earlier ensures UnderlyingMac(r.key) != last.mac {
        EmittedComesFrom(init, minEvents, qualifying, r);
        var c :| c in init && RecordOf(c, r);
      }
      JoinedKeysDiffer(earlier, added, last.mac);
    }
  }

  // Client by client, in the order given, each with its own record first.
  lemma {:induction false} EmissionInOrder(a: seq<Client>, b: seq<Client>, minEvents: int, qualifying: set<string>)
    ensures AllEmitted(a + b, minEvents, qualifying)
      == AllEmitted(a, minEvents, qualifying) + AllEmitted(b, minEvents, qualifying)
    ensures |b| == 1 && b[0].eventCount >= minEvents ==>
      AllEmitted(b, minEvents, qualifying) != []
      && AllEmitted(b, minEvents, qualifying)[0] == Record(b[0].mac, b[0].family, b[0].eventCount, b[0].profile)
  {
    if b == [] {
      assert a + b == a;
    } else {
      var init := b[..|b| - 1];
      assert (a + b)[..|a + b| - 1] == a + init;
      EmissionInOrder(a, init, minEvents, qualifying);
    }
  }

  // For any population composite keys never collide, and every virtual record sits beside the
  // primary record it copies.
  lemma EmissionIsSound(clients: seq<Client>, minEvents: int, qualifying: set<string>)
    requires PlainMacs(clients)
    ensures DistinctKeys(AllEmitted(clients, minEvents, qualifying))
    ensures forall r :: r in AllEmitted(clients, minEvents, qualifying) ==>
      HasPrimary(AllEmitted(clients, minEvents, qualifying), r)
  {
    EmittedKeysDiffer(clients, minEvents, qualifying);
    forall r | r in AllEmitted(clients, minEvents, qualifying)
      ensures HasPrimary(AllEmitted(clients, minEvents, qualifying), r)
    {
      EmittedComesFrom(clients, minEvents, qualifying, r);
    }
  }

  // Family and key kinds agree as well exactly when no device that is scored has a fingerprint
  // family that itself ends in a virtual suffix.
  lemma EmissionIsDualIff(clients: seq<Client>, minEvents: int, qualifying: set<string>)
    requires PlainMacs(clients)
    ensures Dual(AllEmitted(clients, minEvents, qualifying)) <==>
      forall c :: c in clients && c.eventCount >= minEvents ==> FamilyKind(c.family) == Primary
  {
    var all := AllEmitted(clients, minEvents, qualifying);
    EmissionIsSound(clients, minEvents, qualifying);
    if forall c :: c in clients && c.eventCount >= minEvents ==> FamilyKind(c.family) == Primary {
      forall r | r in all ensures FamilyKind(r.family) == KeyKind(r.key) {
        KindsAgree(clients, minEvents, qualifying, r);
      }
    } else {
      var c :| c in clients && c.eventCount >= minEvents && FamilyKind(c.family) != Primary;
      PrimaryIsRecordOf(c);
      assert PrimaryRecord(c) in Emitted(c, minEvents, qualifying);
      EmissionSources(Emission(minEvents, qualifying), clients, PrimaryRecord(c));
    }
  }

  lemma KindsAgree(clients: seq<Client>, minEvents: int, qualifying: set<string>, r: Record)
    requires PlainMacs(clients) && r in AllEmitted(clients, minEvents, qualifying)
    requires forall c :: c in clients && c.eventCount >= minEvents ==> FamilyKind(c.family) == Primary
    ensures FamilyKind(r.family) == KeyKind(r.key)
  {
    EmissionSources(Emission(minEvents, qualifying), clients, r);
    var c :| c in clients && r in Emitted(c, minEvents, qualifying);
    EmittedRecords(c, minEvents, qualifying);
    assert RecordOf(c, r);
  }
}
