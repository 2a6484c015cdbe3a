/** Messages between units, above the level of their encoding. */
module Messages {
  import opened Parameters

  datatype MessageType =
    | MasterSync | WorkSync
    | ControlNetGranularity | ControlScatterClique | ControlWorkTime | ControlWorkCycle
    | MergeOther | MergeMyMasterDepart | MergeMySlaveDepart
    | AbandonMastership | Info | Invalid

  /** `master` names a clique; `offset` is the time to a sync point of that clique. */
  datatype Message = Message(kind: MessageType, master: SystemID, offset: int, work: int) {

    /** What DeltaSync lets a message hold. */
    predicate ValidOffset() {
      0 <= offset <= PERIOD
    }
  }

  predicate CarriesSync(kind: MessageType) {
    kind in {MasterSync, WorkSync, ControlNetGranularity, ControlScatterClique}
  }

  /** Sync messages that a receiver acts on as syncs. */
  predicate IsSync(kind: MessageType) {
    kind == MasterSync || kind == WorkSync
  }

  predicate IsMerge(kind: MessageType) {
    kind in {MergeOther, MergeMyMasterDepart, MergeMySlaveDepart}
  }

  datatype Option<+T> = None | Some(value: T)
}
