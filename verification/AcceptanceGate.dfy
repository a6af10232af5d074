/** The live UE acceptance gate: the evidence of one poll, and the stable block of polls (run_ue_acceptance.py). */
module AcceptanceGate {
  import opened Contracts

  const MAX_AGE := 15.0
  const STABLE := 60.0

  datatype Slice = Embb | Urllc | Mmtc | V2x

  const SLICES: seq<Slice> := [Embb, Urllc, Mmtc, V2x]

  function Index(s: Slice): nat {
    match s
    case Embb => 0
    case Urllc => 1
    case Mmtc => 2
    case V2x => 3
  }

  /** 10.101.0.0/21 and the three pools after it, as 32-bit numbers. */
  function Pool(s: Slice): nat {
    10 * 0x100_0000 + (101 + Index(s)) * 0x1_0000
  }

  const POOL_SIZE: nat := 2048

  /** A host of the pool: neither its network nor its broadcast address. */
  predicate InPool(s: Slice, address: nat) {
    Pool(s) < address < Pool(s) + POOL_SIZE - 1
  }

  /** Five counters in one observation; a field that is not an integer is None. */
  datatype Counters = Counters(requested: Option<int>, granted: Option<int>, registered: Option<int>,
                               established: Option<int>, verified: Option<int>)

  predicate AllAre(c: Counters, n: int) {
    c.requested == c.granted == c.registered == c.established == c.verified == Some(n)
  }

  datatype SliceView = SliceView(counters: Counters, failed: Option<int>)

  const NO_VIEW := SliceView(Counters(None, None, None, None, None), None)

  /** One UE record. A field that is missing or malformed is None. */
  datatype Record = Record(
    slice: Option<Slice>, supi: Option<string>, generation: Option<int>,
    registered: bool, established: bool, verified: bool,
    address: Option<nat>, tun: Option<(string, string)>, session: Option<int>,
    upf: Option<Slice>, endpoint: Option<Slice>, observedAt: Option<real>)

  datatype State = Established | Failed | OtherState

  /** `sources` is the number of evidence sources when all of them are named. */
  datatype Status = Status(
    kubeadm: bool, generation: Option<int>, state: State, totals: Counters, failed: Option<int>,
    observedAt: Option<real>, sources: Option<nat>, noErrors: bool, stableSince: Option<real>,
    slices: Option<PerSlice<Option<SliceView>>>, records: Option<seq<Option<Record>>>)

  datatype Error =
    | WrongRuntime | NotEstablished | WrongTotals | FailedCount | StaleObservation | MissingSources
    | BackendErrors | NotStable | MissingSlices | MalformedSlice(s: Slice) | WrongSliceCounters(s: Slice)
    | FailedSlice(s: Slice) | MissingRecords | MalformedRecord | InvalidIdentity | OtherGeneration(supi: string)
    | DuplicateSupi(supi: string) | IncompleteEvidence(supi: string) | WrongAddress(supi: string)
    | InvalidAddress(supi: string) | MalformedInterface(supi: string) | ReusedInterface(supi: string)
    | InvalidSession(supi: string) | WrongUpf(supi: string) | WrongEndpoint(supi: string)
    | StaleProbe(supi: string) | WrongDistribution | TimeRegressed | EvidenceGap

  predicate Fresh(stamp: Option<real>, now: real) {
    stamp.Some? && now - MAX_AGE <= stamp.value <= now + 1.0
  }

  // ---------------------------------------------------------------- the desired distribution

  /** One value for every slice. */
  datatype PerSlice<T> = PerSlice(embb: T, urllc: T, mmtc: T, v2x: T) {
    function At(s: Slice): T {
      match s
      case Embb => embb
      case Urllc => urllc
      case Mmtc => mmtc
      case V2x => v2x
    }

    function With(s: Slice, value: T): PerSlice<T> {
      match s
      case Embb => this.(embb := value)
      case Urllc => this.(urllc := value)
      case Mmtc => this.(mmtc := value)
      case V2x => this.(v2x := value)
    }
  }

  type Desired = PerSlice<nat>

  function Share(total: nat, s: Slice): nat {
    total / 4 + if Index(s) < total % 4 then 1 else 0
  }

  function Distribution(total: nat): Desired {
    PerSlice(Share(total, Embb), Share(total, Urllc), Share(total, Mmtc), Share(total, V2x))
  }

  function Total(d: Desired): nat {
    d.embb + d.urllc + d.mmtc + d.v2x
  }

  /** Every UE is placed, and no slice gets two more than another. */
  lemma DistributionExact(total: nat)
    ensures Total(Distribution(total)) == total
    ensures forall s, t :: Distribution(total).At(s) <= Distribution(total).At(t) + 1
  {
  }

  // ---------------------------------------------------------------- what the evidence must say

  /** The round as a whole. */
  predicate RoundHolds(st: Status, d: Desired, generation: int, now: real) {
    && st.kubeadm && st.generation == Some(generation) && st.state.Established?
    && AllAre(st.totals, Total(d)) && st.failed == Some(0)
    && Fresh(st.observedAt, now) && st.sources == Some(5) && st.noErrors
    && st.stableSince.Some? && st.observedAt.value - st.stableSince.value >= STABLE
  }

  /** The round and each of its slices. */
  predicate HeaderHolds(st: Status, d: Desired, generation: int, now: real) {
    && RoundHolds(st, d, generation, now)
    && st.slices.Some? && forall s :: SliceHolds(st.slices.value.At(s), d.At(s))
  }

  predicate SliceHolds(view: Option<SliceView>, wanted: nat) {
    view.Some? && AllAre(view.value.counters, wanted) && view.value.failed == Some(0)
  }

  /** Everything about one record on its own. */
  predicate RecordHolds(r: Option<Record>, generation: int, now: real) {
    && r.Some? && r.value.slice.Some? && r.value.supi.Some?
    && var u := r.value;
    && u.generation == Some(generation) && u.registered && u.established && u.verified
    && u.address.Some? && InPool(u.slice.value, u.address.value)
    && u.tun.Some? && u.session.Some? && 1 <= u.session.value <= 255
    && u.upf == u.slice && u.endpoint == u.slice && Fresh(u.observedAt, now)
  }

  /** No two records share a SUPI, an address or a tunnel interface. */
  predicate Apart(a: Option<Record>, b: Option<Record>)
  {
    && a.Some? && b.Some?
    && a.value.supi != b.value.supi && a.value.address != b.value.address && a.value.tun != b.value.tun
  }

  function Members(records: seq<Option<Record>>, s: Slice): nat {
    if records == [] then 0
    else
      var last := records[|records| - 1];
      Members(records[..|records| - 1], s) + if last.Some? && last.value.slice == Some(s) then 1 else 0
  }

  /** The first n records hold, and are pairwise apart. */
  predicate RecordsHold(records: seq<Option<Record>>, generation: int, now: real) {
    && (forall i :: 0 <= i < |records| ==> RecordHolds(records[i], generation, now))
    && (forall i, j :: 0 <= i < j < |records| ==> Apart(records[i], records[j]))
  }

  predicate EvidenceHolds(st: Status, d: Desired, generation: int, now: real)
  {
    && HeaderHolds(st, d, generation, now)
    && st.records.Some? && |st.records.value| == Total(d)
    && RecordsHold(st.records.value, generation, now)
    && forall s :: Members(st.records.value, s) == d.At(s)
  }

  // ---------------------------------------------------------------- the single pass

  /** What the pass has seen. */
  datatype Seen = Seen(supis: set<string>, addresses: set<nat>, tuns: set<(string, string)>, counts: Desired)

  const NOTHING_SEEN := Seen({}, {}, {}, PerSlice(0, 0, 0, 0))

  function Supis(records: seq<Option<Record>>): set<Option<string>> {
    set i | 0 <= i < |records| && records[i].Some? :: records[i].value.supi
  }

  function Addresses(records: seq<Option<Record>>): set<Option<nat>> {
    set i | 0 <= i < |records| && records[i].Some? :: records[i].value.address
  }

  function Tuns(records: seq<Option<Record>>): set<Option<(string, string)>> {
    set i | 0 <= i < |records| && records[i].Some? :: records[i].value.tun
  }

  /** As long as no error was found, the pass has seen exactly the records before it. */
  ghost predicate SeenExactly(seen: Seen, records: seq<Option<Record>>) {
    && (forall s :: seen.counts.At(s) == Members(records, s))
    && (forall x :: x in seen.supis <==> Some(x) in Supis(records))
    && (forall x :: x in seen.addresses <==> Some(x) in Addresses(records))
    && (forall x :: x in seen.tuns <==> Some(x) in Tuns(records))
  }

  /** The record is right on its own, and shares nothing with those before it. */
  predicate FitsIn(r: Option<Record>, seen: Seen, generation: int, now: real) {
    && RecordHolds(r, generation, now)
    && r.value.supi.value !in seen.supis && r.value.address.value !in seen.addresses
    && r.value.tun.value !in seen.tuns
  }

  function SeenWith(seen: Seen, u: Record): Seen
    requires u.slice.Some? && u.supi.Some? && u.address.Some? && u.tun.Some?
  {
    Seen(seen.supis + {u.supi.value}, seen.addresses + {u.address.value}, seen.tuns + {u.tun.value},
         seen.counts.With(u.slice.value, seen.counts.At(u.slice.value) + 1))
  }

  /** The errors of one record given what was seen before it, and what is seen after it. */
  method CheckRecord(r: Option<Record>, generation: int, now: real, before: Seen) returns (errors: seq<Error>, seen: Seen)
    ensures errors == [] <==> FitsIn(r, before, generation, now)
    ensures errors == [] ==> seen == SeenWith(before, r.value)
  {
    errors, seen := [], before;
    if r.None? {
      return [MalformedRecord], seen;
    }
    var u := r.value;
    if u.slice.None? || u.supi.None? {
      return [InvalidIdentity], seen;
    }
    var slice, supi := u.slice.value, u.supi.value;
    seen := seen.(counts := seen.counts.With(slice, seen.counts.At(slice) + 1));
    if u.generation != Some(generation) {
      errors := errors + [OtherGeneration(supi)];
    }
    if supi in seen.supis {
      errors := errors + [DuplicateSupi(supi)];
    }
    seen := seen.(supis := seen.supis + {supi});
    if !(u.registered && u.established && u.verified) {
      errors := errors + [IncompleteEvidence(supi)];
    }
    if u.address.None? {
      errors := errors + [InvalidAddress(supi)];
    } else {
      if !InPool(slice, u.address.value) || u.address.value in seen.addresses {
        errors := errors + [WrongAddress(supi)];
      }
      seen := seen.(addresses := seen.addresses + {u.address.value});
    }
    if u.tun.None? {
      errors := errors + [MalformedInterface(supi)];
    } else if u.tun.value in seen.tuns {
      errors := errors + [ReusedInterface(supi)];
    } else {
      seen := seen.(tuns := seen.tuns + {u.tun.value});
    }
    if u.session.None? || !(1 <= u.session.value <= 255) {
      errors := errors + [InvalidSession(supi)];
    }
    if u.upf != u.slice {
      errors := errors + [WrongUpf(supi)];
    }
    if u.endpoint != u.slice {
      errors := errors + [WrongEndpoint(supi)];
    }
    if !Fresh(u.observedAt, now) {
      errors := errors + [StaleProbe(supi)];
    }
  }

  lemma ApartFromAll(seen: Seen, records: seq<Option<Record>>, r: Option<Record>, generation: int, now: real)
    requires SeenExactly(seen, records) && RecordHolds(r, generation, now)
    requires forall i :: 0 <= i < |records| ==> RecordHolds(records[i], generation, now)
    ensures (forall i :: 0 <= i < |records| ==> Apart(records[i], r)) <==> FitsIn(r, seen, generation, now)
  {
    assert forall i :: 0 <= i < |records| ==> records[i].Some?;
    hide RecordHolds;
    hide Members;
  }

  lemma SeenOneMore(seen: Seen, records: seq<Option<Record>>, r: Option<Record>, generation: int, now: real)
    requires SeenExactly(seen, records) && RecordsHold(records, generation, now)
    ensures RecordsHold(records + [r], generation, now) <==> FitsIn(r, seen, generation, now)
  {
    hide RecordHolds;
    hide SeenExactly;
    hide FitsIn;
    var longer := records + [r];
    assert forall i :: 0 <= i < |records| ==> longer[i] == records[i];
    assert longer[|records|] == r;
    if RecordHolds(r, generation, now) {
      ApartFromAll(seen, records, r, generation, now);
      HoldsIsSome(longer, generation, now);
      if FitsIn(r, seen, generation, now) {
        forall i, j | 0 <= i < j < |longer| ensures Apart(longer[i], longer[j]) {
        }
      }
    } else {
      FitsHolds(r, seen, generation, now);
    }
  }

  lemma HoldsIsSome(records: seq<Option<Record>>, generation: int, now: real)
    requires forall i :: 0 <= i < |records| ==> RecordHolds(records[i], generation, now)
    ensures forall i :: 0 <= i < |records| ==> records[i].Some?
  {
  }

  lemma FitsHolds(r: Option<Record>, seen: Seen, generation: int, now: real)
    ensures FitsIn(r, seen, generation, now) ==> RecordHolds(r, generation, now)
  {
  }

  lemma SeenStaysExact(seen: Seen, records: seq<Option<Record>>, r: Option<Record>)
    requires SeenExactly(seen, records)
    requires r.Some? && r.value.slice.Some? && r.value.supi.Some? && r.value.address.Some? && r.value.tun.Some?
    ensures SeenExactly(SeenWith(seen, r.value), records + [r])
  {
    var longer := records + [r];
    assert longer[..|records|] == records && longer[|records|] == r;
    assert forall i :: 0 <= i < |records| ==> longer[i] == records[i];
    assert Supis(longer) == Supis(records) + {r.value.supi};
    assert Addresses(longer) == Addresses(records) + {r.value.address};
    assert Tuns(longer) == Tuns(records) + {r.value.tun};
  }

  /** The part of the header that is not about slices. */
  method RoundErrors(st: Status, d: Desired, generation: int, now: real) returns (errors: seq<Error>)
    ensures errors == [] <==> RoundHolds(st, d, generation, now)
  {
    hide AllAre;
    errors := [];
    if !st.kubeadm || st.generation != Some(generation) { errors := errors + [WrongRuntime]; }
    if !st.state.Established? { errors := errors + [NotEstablished]; }
    if !AllAre(st.totals, Total(d)) { errors := errors + [WrongTotals]; }
    if st.failed != Some(0) { errors := errors + [FailedCount]; }
    if !Fresh(st.observedAt, now) { errors := errors + [StaleObservation]; }
    if st.sources != Some(5) { errors := errors + [MissingSources]; }
    if !st.noErrors { errors := errors + [BackendErrors]; }
    if st.stableSince.None? || st.observedAt.None? || st.observedAt.value - st.stableSince.value < STABLE {
      errors := errors + [NotStable];
    }
  }

  /** The header part of evidence_errors. */
  method HeaderErrors(st: Status, d: Desired, generation: int, now: real) returns (errors: seq<Error>)
    ensures errors == [] <==> HeaderHolds(st, d, generation, now)
  {
    hide RoundHolds;
    hide AllAre;
    errors := RoundErrors(st, d, generation, now);
    var absent := Some(NO_VIEW);
    var slices: PerSlice<Option<SliceView>> := PerSlice(absent, absent, absent, absent);
    if st.slices.None? {
      errors := errors + [MissingSlices];
    } else {
      slices := st.slices.value;
    }
    var sliceErrors := SliceErrors(slices, d);
    errors := errors + sliceErrors;
  }

  method SliceErrors(slices: PerSlice<Option<SliceView>>, d: Desired) returns (errors: seq<Error>)
    ensures errors == [] <==> forall s :: SliceHolds(slices.At(s), d.At(s))
  {
    errors := [];
    for i := 0 to |SLICES|
      invariant errors == [] <==> forall k :: 0 <= k < i ==> SliceHolds(slices.At(SLICES[k]), d.At(SLICES[k]))
    {
      var view, wanted := slices.At(SLICES[i]), d.At(SLICES[i]);
      if view.None? {
        errors := errors + [MalformedSlice(SLICES[i])];
      } else {
        if !AllAre(view.value.counters, wanted) { errors := errors + [WrongSliceCounters(SLICES[i])]; }
        if view.value.failed != Some(0) { errors := errors + [FailedSlice(SLICES[i])]; }
      }
    }
    EverySlice(slices, d);
  }

  /** The four names are all the slices there are. */
  lemma EverySlice(slices: PerSlice<Option<SliceView>>, d: Desired)
    ensures (forall k :: 0 <= k < |SLICES| ==> SliceHolds(slices.At(SLICES[k]), d.At(SLICES[k])))
       <==> forall s :: SliceHolds(slices.At(s), d.At(s))
  {
    hide SliceHolds;
    if forall k :: 0 <= k < |SLICES| ==> SliceHolds(slices.At(SLICES[k]), d.At(SLICES[k])) {
      forall s ensures SliceHolds(slices.At(s), d.At(s)) {
        assert SLICES[Index(s)] == s;
      }
    }
  }

  /** evidence_errors: no error exactly when every condition on the evidence holds. */
  method EvidenceErrors(st: Status, d: Desired, generation: int, now: real) returns (errors: seq<Error>)
    ensures errors == [] <==> EvidenceHolds(st, d, generation, now)
  {
    hide HeaderHolds;
    hide RecordHolds;
    hide RecordsHold;
    errors := HeaderErrors(st, d, generation, now);
    if st.records.None? || |st.records.value| != Total(d) {
      return errors + [MissingRecords];
    }
    var recordErrors, counts := RecordErrors(st.records.value, generation, now);
    errors := errors + recordErrors;
    if counts != d {
      errors := errors + [WrongDistribution];
    }
    SameCounts(counts, d);
  }

  lemma SameCounts(a: Desired, b: Desired)
    ensures a == b <==> forall s :: a.At(s) == b.At(s)
  {
    if forall s :: a.At(s) == b.At(s) {
      assert a.At(Embb) == b.At(Embb) && a.At(Urllc) == b.At(Urllc);
      assert a.At(Mmtc) == b.At(Mmtc) && a.At(V2x) == b.At(V2x);
    }
  }

  /** The single pass over the records. */
  method RecordErrors(records: seq<Option<Record>>, generation: int, now: real) returns (errors: seq<Error>, counts: Desired)
    ensures errors == [] <==> RecordsHold(records, generation, now)
    ensures errors == [] ==> forall s :: counts.At(s) == Members(records, s)
  {
    errors := [];
    var seen := NOTHING_SEEN;
    for i := 0 to |records|
      invariant errors == [] <==> RecordsHold(records[..i], generation, now)
      invariant errors == [] ==> SeenExactly(seen, records[..i])
    {
      hide SeenExactly;
      hide RecordsHold;
      hide RecordHolds;
      hide SeenWith;
      var record := records[i];
      assert records[..i + 1] == records[..i] + [record];
      RecordsShrink(records[..i], record, generation, now);
      var more, after := CheckRecord(record, generation, now, seen);
      if errors == [] {
        SeenOneMore(seen, records[..i], record, generation, now);
        if more == [] {
          FitsComplete(record, seen, generation, now);
          SeenStaysExact(seen, records[..i], record);
        }
      }
      errors, seen := errors + more, after;
    }
    assert records[..|records|] == records;
    counts := seen.counts;
  }

  lemma FitsComplete(r: Option<Record>, seen: Seen, generation: int, now: real)
    requires FitsIn(r, seen, generation, now)
    ensures r.Some? && r.value.slice.Some? && r.value.supi.Some? && r.value.address.Some? && r.value.tun.Some?
  {
  }

  lemma RecordsShrink(records: seq<Option<Record>>, r: Option<Record>, generation: int, now: real)
    ensures RecordsHold(records + [r], generation, now) ==> RecordsHold(records, generation, now)
  {
    hide RecordHolds;
    var longer := records + [r];
    assert forall i :: 0 <= i < |records| ==> longer[i] == records[i];
  }

  // ---------------------------------------------------------------- the gate loop

  /** What one turn of the loop reads: the guard's clock, the status, the wall clock, the stability clock. */
  datatype Answer = Answer(guard: real, status: Status, now: real, stamp: real)

  datatype GateResult = Passed | Superseded | Terminated | TimedOut

  /** observation_sequence_errors. */
  function SequenceErrors(observed: Option<real>, previous: Option<real>): seq<Error> {
    if observed.None? || (previous.Some? && observed.value < previous.value) then [TimeRegressed]
    else if previous.Some? && observed.value - previous.value > MAX_AGE then [EvidenceGap]
    else []
  }

  predicate Continues(previous: Option<real>, observed: Option<real>) {
    observed.Some? && (previous.Some? ==> 0.0 <= observed.value - previous.value <= MAX_AGE)
  }

  function PreviousObserved(answers: nat -> Answer, k: nat): Option<real> {
    if k == 0 then None else answers(k - 1).status.observedAt
  }

  /** Poll k carries complete evidence and continues the poll before it. */
  predicate Clean(answers: nat -> Answer, d: Desired, generation: int, k: nat) {
    EvidenceHolds(answers(k).status, d, generation, answers(k).now)
    && Continues(PreviousObserved(answers, k), answers(k).status.observedAt)
  }

  /** Polls i to j are all clean and span the stability window. */
  ghost predicate StableBlock(answers: nat -> Answer, d: Desired, generation: int, i: nat, j: nat) {
    i < j && (forall k :: i <= k <= j ==> Clean(answers, d, generation, k))
    && answers(j).stamp - answers(i).stamp >= STABLE
  }

  predicate Abandoned(answers: nat -> Answer, generation: int, k: nat) {
    answers(k).status.generation != Some(generation) || answers(k).status.state.Failed?
  }

  /** In a stable block the observation times never go back, and no two neighbours are far apart. */
  lemma BlockIsContinuous(answers: nat -> Answer, d: Desired, generation: int, i: nat, j: nat, k: nat)
    requires StableBlock(answers, d, generation, i, j) && i <= k < j
    ensures answers(k).status.observedAt.Some? && answers(k + 1).status.observedAt.Some?
    ensures var gap := answers(k + 1).status.observedAt.value - answers(k).status.observedAt.value;
      0.0 <= gap <= MAX_AGE
  {
    hide EvidenceHolds;
    assert Clean(answers, d, generation, k) && Clean(answers, d, generation, k + 1);
  }

  lemma AbandonedIsNotClean(answers: nat -> Answer, d: Desired, generation: int, k: nat)
    requires Abandoned(answers, generation, k)
    ensures !Clean(answers, d, generation, k)
  {
  }

  /** No stable block ends at poll p when the clean polls before it are too young. */
  lemma NoBlockEnding(answers: nat -> Answer, d: Desired, generation: int, start: nat, p: nat)
    requires forall i: nat, j: nat :: i <= j ==> answers(i).stamp <= answers(j).stamp
    requires start <= p + 1 && (start > 0 ==> !Clean(answers, d, generation, start - 1))
    requires start <= p ==> answers(p).stamp - answers(start).stamp < STABLE
    ensures forall i :: 0 <= i < p ==> !StableBlock(answers, d, generation, i, p)
  {
    hide Clean;
  }

  /** None of the first n polls ends a stable block. */
  ghost predicate NoBlocks(answers: nat -> Answer, d: Desired, generation: int, n: nat) {
    forall i, j :: 0 <= i < j < n ==> !StableBlock(answers, d, generation, i, j)
  }

  /** The clean polls since `start`, the first clean one after the last that was not. */
  ghost predicate CleanSince(answers: nat -> Answer, d: Desired, generation: int, start: nat, n: nat) {
    && start <= n
    && (forall k :: start <= k < n ==> Clean(answers, d, generation, k))
    && (start > 0 ==> !Clean(answers, d, generation, start - 1))
    && (start < n ==> answers(n - 1).stamp - answers(start).stamp < STABLE)
    && NoBlocks(answers, d, generation, n)
  }

  lemma CleanMeans(answers: nat -> Answer, d: Desired, generation: int, k: nat)
    ensures Clean(answers, d, generation, k) <==>
              EvidenceHolds(answers(k).status, d, generation, answers(k).now)
              && SequenceErrors(answers(k).status.observedAt, PreviousObserved(answers, k)) == []
  {
    hide EvidenceHolds;
  }

  /** One more poll, clean or not, that completes no block. */
  lemma OneMorePoll(answers: nat -> Answer, d: Desired, generation: int, start: nat, n: nat, start': nat)
    requires forall i: nat, j: nat :: i <= j ==> answers(i).stamp <= answers(j).stamp
    requires CleanSince(answers, d, generation, start, n)
    requires start' == if Clean(answers, d, generation, n) then start else n + 1
    requires Clean(answers, d, generation, n) ==> answers(n).stamp - answers(start).stamp < STABLE
    ensures CleanSince(answers, d, generation, start', n + 1)
  {
    hide Clean;
    NoBlockEnding(answers, d, generation, start', n);
    hide StableBlock;
  }

  /** The poll that completes a block. */
  lemma BlockCompleted(answers: nat -> Answer, d: Desired, generation: int, start: nat, n: nat)
    requires CleanSince(answers, d, generation, start, n) && start < n && Clean(answers, d, generation, n)
    requires answers(n).stamp - answers(start).stamp >= STABLE
    ensures StableBlock(answers, d, generation, start, n)
  {
    hide Clean;
  }

  lemma Quotient(x: real, p: real)
    requires p > 0.0
    ensures x / p * p == x
  {
  }

  lemma ProductSign(x: real, p: real)
    requires x * p >= 0.0 && p > 0.0
    ensures x >= 0.0
  {
  }

  /** How many turns fit before the deadline, at most. */
  function Turns(left: real, poll: real): int
    requires poll > 0.0
  {
    (left / poll).Floor + 1
  }

  /** Sleeping `poll` seconds brings the deadline at least one turn nearer. */
  lemma OneTurnNearer(before: real, after: real, poll: real)
    requires poll > 0.0 && 0.0 < before && after <= before - poll
    ensures Turns(after, poll) < Turns(before, poll) && Turns(before, poll) > 0
  {
    var a, b := after / poll, before / poll;
    Quotient(after, poll);
    Quotient(before, poll);
    assert (b - 1.0 - a) * poll == b * poll - poll - a * poll;
    ProductSign(b - 1.0 - a, poll);
    ProductSign(b, poll);
  }

  /**
   One gate. The monotonic clock never goes back, and every turn sleeps `poll` seconds; `polls` is the
   number of turns taken. A gate passes exactly when some block of its polls was stable, and otherwise
   stops for a superseding or failed generation, or at the deadline.
   */
  method RunGate(answers: nat -> Answer, deadline: real, poll: real, d: Desired, generation: int)
      returns (r: GateResult, polls: nat)
    requires poll > 0.0
    requires forall k: nat :: answers(k).guard + poll <= answers(k + 1).guard
    requires forall i: nat, j: nat :: i <= j ==> answers(i).stamp <= answers(j).stamp
    ensures r == Passed <==> !NoBlocks(answers, d, generation, polls)
    ensures polls > 0 ==> Undisturbed(answers, deadline, generation, polls - 1)
    ensures r == Superseded || r == Terminated ==> polls > 0 && Abandoned(answers, generation, polls - 1)
    ensures r == TimedOut ==> answers(polls).guard >= deadline
  {
    hide EvidenceHolds;
    hide Clean;
    hide CleanSince;
    hide SequenceErrors;
    hide StableBlock;
    hide NoBlocks;
    hide Turns;
    NoneUndisturbed(answers, deadline, generation);
    hide Undisturbed;
    var stableSince: Option<real> := None;
    var lastObserved: Option<real> := None;
    ghost var start := 0;
    polls := 0;
    NothingPolled(answers, d, generation);
    while answers(polls).guard < deadline
      invariant lastObserved == PreviousObserved(answers, polls)
      invariant Undisturbed(answers, deadline, generation, polls)
      invariant polls > 0 ==> Undisturbed(answers, deadline, generation, polls - 1)
      invariant CleanSince(answers, d, generation, start, polls) && start <= polls
      invariant stableSince == if start < polls then Some(answers(start).stamp) else None
      decreases Turns(deadline - answers(polls).guard, poll)
    {
      var a := answers(polls);
      var errors := EvidenceErrors(a.status, d, generation, a.now);
      errors := errors + SequenceErrors(a.status.observedAt, lastObserved);
      CleanMeans(answers, d, generation, polls);
      lastObserved := a.status.observedAt;
      if a.status.generation != Some(generation) || a.status.state.Failed? {
        AbandonedIsNotClean(answers, d, generation, polls);
        OneMorePoll(answers, d, generation, start, polls, polls + 1);
        SinceMeans(answers, d, generation, polls + 1, polls + 1);
        return if a.status.generation != Some(generation) then Superseded else Terminated, polls + 1;
      }
      if errors != [] {
        OneMorePoll(answers, d, generation, start, polls, polls + 1);
        stableSince, start := None, polls + 1;
      } else if stableSince.None? {
        stableSince := Some(a.stamp);
        OneMorePoll(answers, d, generation, start, polls, start);
      } else if a.stamp - stableSince.value >= STABLE {
        BlockCompleted(answers, d, generation, start, polls);
        BlockCounts(answers, d, generation, start, polls);
        return Passed, polls + 1;
      } else {
        OneMorePoll(answers, d, generation, start, polls, start);
      }
      StillUndisturbed(answers, deadline, generation, polls);
      OneTurnNearer(deadline - a.guard, deadline - answers(polls + 1).guard, poll);
      polls := polls + 1;
    }
    SinceMeans(answers, d, generation, start, polls);
    return TimedOut, polls;
  }

  lemma BlockCounts(answers: nat -> Answer, d: Desired, generation: int, i: nat, j: nat)
    requires i < j && StableBlock(answers, d, generation, i, j)
    ensures !NoBlocks(answers, d, generation, j + 1)
  {
    hide StableBlock;
  }

  /** The first n polls were taken before the deadline, and none of them ended the gate. */
  ghost predicate Undisturbed(answers: nat -> Answer, deadline: real, generation: int, n: nat) {
    forall k :: 0 <= k < n ==> answers(k).guard < deadline && !Abandoned(answers, generation, k)
  }

  lemma NoneUndisturbed(answers: nat -> Answer, deadline: real, generation: int)
    ensures Undisturbed(answers, deadline, generation, 0)
  {
  }

  lemma StillUndisturbed(answers: nat -> Answer, deadline: real, generation: int, n: nat)
    requires Undisturbed(answers, deadline, generation, n)
    requires answers(n).guard < deadline && !Abandoned(answers, generation, n)
    ensures Undisturbed(answers, deadline, generation, n + 1)
  {
    hide Abandoned;
  }

  lemma NothingPolled(answers: nat -> Answer, d: Desired, generation: int)
    ensures CleanSince(answers, d, generation, 0, 0)
  {
    hide Clean;
  }

  lemma SinceMeans(answers: nat -> Answer, d: Desired, generation: int, start: nat, n: nat)
    requires CleanSince(answers, d, generation, start, n)
    ensures NoBlocks(answers, d, generation, n)
  {
  }
}
