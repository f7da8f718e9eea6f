/** What a sidecar transaction owns: files changed one after another and undone in reverse, and the state
    of its services. */
module OwnedFiles {
  import opened Durable
  import H = Host

  type Bytes = H.Bytes

  datatype Role = Ir | Kh

  datatype Place =
    | IrToml | IrCompose | IrControl | IrXhttp | PanelBackend
    | KhToml | KhCompose | KhBridge | KhVhost
    | Elsewhere(path: string)

  datatype Phase = Baseline | Started | Reloaded

  datatype Runtime = Runtime(role: Role, phase: Phase)

  /** A state file: not there, not acceptable, or a document. */
  datatype Saved<T> = Missing | Unreadable | Holds(value: T)

  /** A file to create (`before` is None) or to edit. */
  datatype Change<P, F> = Change(place: P, before: Option<F>, after: F)

  function Patched<P, F>(files: map<P, F>, changes: seq<Change<P, F>>, k: nat): map<P, F>
    requires k <= |changes|
  {
    if k == 0 then files
    else Patched(files, changes, k - 1)[changes[k - 1].place := changes[k - 1].after]
  }

  function Undone<P, F>(files: map<P, F>, change: Change<P, F>): map<P, F> {
    match change.before
    case None => files - {change.place}
    case Some(data) => files[change.place := data]
  }

  function At<P, F>(files: map<P, F>, place: P): Option<F> {
    if place in files then Some(files[place]) else None
  }

  /** The changes are about different places and start from these files. */
  predicate StartFrom<P(==), F(==)>(files: map<P, F>, changes: seq<Change<P, F>>) {
    && (forall i, j :: 0 <= i < j < |changes| ==> changes[i].place != changes[j].place)
    && (forall i :: 0 <= i < |changes| ==> changes[i].before == At(files, changes[i].place))
  }

  lemma {:induction false} PatchedAt<P, F>(files: map<P, F>, changes: seq<Change<P, F>>, k: nat, j: nat)
    requires StartFrom(files, changes) && k <= |changes| && j < |changes|
    ensures At(Patched(files, changes, k), changes[j].place) ==
            (if j < k then Some(changes[j].after) else changes[j].before)
  {
    if k > 0 {
      PatchedAt(files, changes, k - 1, j);
    }
  }

  /** Changes leave other files alone. */
  lemma {:induction false} PatchedAside<P, F>(files: map<P, F>, changes: seq<Change<P, F>>, k: nat, place: P)
    requires k <= |changes| && forall i :: 0 <= i < |changes| ==> changes[i].place != place
    ensures At(Patched(files, changes, k), place) == At(files, place)
  {
    if k > 0 {
      PatchedAside(files, changes, k - 1, place);
    }
  }

  /** Undoing the last change gives back the files before it. */
  lemma UndoLast<P, F>(files: map<P, F>, changes: seq<Change<P, F>>, k: nat)
    requires StartFrom(files, changes) && 0 < k <= |changes|
    ensures Undone(Patched(files, changes, k), changes[k - 1]) == Patched(files, changes, k - 1)
  {
    PatchedAt(files, changes, k - 1, k - 1);
  }

  /** What has to become of one resource: whether it was applied, and what was there before. */
  datatype Fate<P, F> = Fate(place: P, applied: bool, before: Option<F>)

  function Mended<P, F>(files: map<P, F>, fate: Fate<P, F>): map<P, F> {
    if !fate.applied then files
    else if fate.before.None? then files - {fate.place}
    else files[fate.place := fate.before.value]
  }

  /** The files after the first k resources are put back, the last first. */
  function MendedAll<P, F>(files: map<P, F>, fates: seq<Fate<P, F>>, k: nat): map<P, F>
    requires k <= |fates|
    decreases k
  {
    if k == 0 then files else MendedAll(Mended(files, fates[k - 1]), fates, k - 1)
  }

  function FateAt<P, F>(files: map<P, F>, fate: Fate<P, F>): Option<F> {
    if fate.applied then fate.before else At(files, fate.place)
  }

  predicate Distinct<P(==), F>(fates: seq<Fate<P, F>>) {
    forall i, j :: 0 <= i < j < |fates| ==> fates[i].place != fates[j].place
  }

  /** Each resource meets its fate, and nothing else changes. */
  lemma {:induction false} MendedAt<P, F>(files: map<P, F>, fates: seq<Fate<P, F>>, k: nat, place: P)
    requires k <= |fates| && Distinct(fates)
    ensures forall i :: 0 <= i < k && fates[i].place == place ==>
            At(MendedAll(files, fates, k), place) == FateAt(files, fates[i])
    ensures (forall i :: 0 <= i < k ==> fates[i].place != place) ==>
            At(MendedAll(files, fates, k), place) == At(files, place)
    decreases k
  {
    if k > 0 {
      MendedAt(Mended(files, fates[k - 1]), fates, k - 1, place);
    }
  }
}
