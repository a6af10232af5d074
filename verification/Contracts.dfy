/** Values shared by the agent loop, its native readers and the independent verifier. */
module Contracts {

  datatype Option<+T> = None | Some(value: T)

  /** One UE row of an accepted traffic observation. */
  datatype Row = Row(
    supi: string, eventId: string, slice: string, requestedSlice: string,
    offeredUl: real, offeredDl: real, metric: real)

  /** One native AMBR rule, and the PDU session that carries it. */
  datatype Qer = Qer(id: int, pdrIds: seq<int>, ul: nat, dl: nat)
  datatype Session = Session(sessionId: string, pfcpSeid: string, upf: string, qers: seq<Qer>)

  /** The independent native inventory, keyed by SUPI. */
  type Inventory = map<string, Session>

  /** A commissioned event cohort with one profile. */
  datatype Candidate = Candidate(
    id: string, eventId: string, profileId: string, treatment: seq<string>, holdout: seq<string>)

  /**
   A traffic measurement as the observer returns it; `live` is its `scenarioActive` flag and `window` the
   published traffic aggregate it was taken from.
   */
  datatype Reading = Reading(
    round: string, generation: nat, sequence: nat, revision: int,
    observedAt: real, rows: seq<Row>, live: bool, window: string)

  /** The predeclared contract together with the loop's own limits. */
  datatype Config = Config(
    round: string, generation: nat, totalUes: nat, profiles: seq<string>, maxAge: int,
    maxChanges: nat, minGap: nat, maxCycles: nat, retain: bool)
  {
    /** What the constructors of the contract and of the loop accept. */
    predicate Valid() {
      1 <= totalUes <= 100 && 1 <= maxAge <= 120 && 1 <= minGap && 1 <= maxCycles <= 5
    }
  }

  function Supis(rows: seq<Row>): set<string> {
    set row | row in rows :: row.supi
  }

  predicate DistinctSupis(rows: seq<Row>) {
    forall i, j :: 0 <= i < j < |rows| ==> rows[i].supi != rows[j].supi
  }
}
