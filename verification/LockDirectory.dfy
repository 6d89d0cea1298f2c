/** The parent directory of one managed checkout, as the lock protocol sees it:
    the canonical lock name, the private owner directories, and the claim
    directories with their `owner` and `retired` slots.  Every function below is
    one filesystem call; `None` is the error the protocol branches on. */
module LockDirectory {
  import opened Wrappers

  type Nonce = nat
  type Pid = nat

  /** What a lock name can hold: nothing, a legacy directory lock, or the
      symlink that names one generation. */
  datatype Canon = Absent | Legacy | Link(nonce: Nonce)

  /** A private owner directory: its `owner-v1` record (the writer's process) and
      its `canonical` entry, filled once the generation is detached. */
  datatype Slot = Slot(record: Option<Pid>, tomb: Canon)

  /** The name of a claim directory binds the claimed owner and the claimant. */
  datatype ClaimId = ClaimId(owner: Nonce, nonce: Nonce)

  /** A claim directory: its `claim-v1` record and its two slots. */
  datatype ClaimDir = ClaimDir(record: Option<Pid>, owner: Option<Slot>, retired: Option<Slot>)

  datatype Dir = Dir(canonical: Canon, owners: map<Nonce, Slot>, claims: map<ClaimId, ClaimDir>)

  const EmptyDir := Dir(Absent, map[], map[])

  // ----- reads -----

  predicate Recorded(slot: Slot) { slot.record.Some? && slot.tomb.Absent? }

  predicate Tombstoned(slot: Slot) { slot.record.Some? && !slot.tomb.Absent? }

  predicate HasOwnerSlot(d: Dir, c: ClaimId) { c in d.claims && d.claims[c].owner.Some? }

  /** The claim directory contains exactly `claim-v1` and `owner`. */
  predicate Bears(d: Dir, c: ClaimId) {
    HasOwnerSlot(d, c) && d.claims[c].record.Some? && d.claims[c].retired.None?
  }

  /** The claim directory contains exactly `claim-v1`. */
  predicate Bare(d: Dir, c: ClaimId) {
    c in d.claims && d.claims[c] == ClaimDir(d.claims[c].record, None, None) && d.claims[c].record.Some?
  }

  predicate OwnerRecorded(d: Dir, n: Nonce) { n in d.owners && Recorded(d.owners[n]) }

  predicate SlotRecorded(d: Dir, c: ClaimId) { HasOwnerSlot(d, c) && Recorded(d.claims[c].owner.value) }

  predicate SlotTombstoned(d: Dir, c: ClaimId) { HasOwnerSlot(d, c) && Tombstoned(d.claims[c].owner.value) }

  predicate TombNames(d: Dir, c: ClaimId) {
    HasOwnerSlot(d, c) && d.claims[c].owner.value.tomb == Link(c.owner)
  }

  predicate RetiredWhole(d: Dir, c: ClaimId) {
    c in d.claims && d.claims[c].retired.Some? && Tombstoned(d.claims[c].retired.value)
  }

  // ----- writes -----

  /** `rename` of a complete preparation directory to its final owner name. */
  function AddOwner(d: Dir, n: Nonce, me: Pid): Dir {
    d.(owners := d.owners[n := Slot(Some(me), Absent)])
  }

  function AddClaim(d: Dir, c: ClaimId, me: Pid): Dir {
    d.(claims := d.claims[c := ClaimDir(Some(me), None, None)])
  }

  /** `symlink` creates the name exclusively. */
  function SymlinkCanonical(d: Dir, n: Nonce): Option<Dir> {
    if d.canonical.Absent? then Some(d.(canonical := Link(n))) else None
  }

  /** `rename` of a directory replaces nothing or an empty directory. */
  predicate Replaceable(slot: Option<Slot>) { slot.None? || slot.value == Slot(None, Absent) }

  function RenameOwnerToClaim(d: Dir, n: Nonce, c: ClaimId): Option<Dir> {
    if n in d.owners && c in d.claims && Replaceable(d.claims[c].owner) then
      Some(Dir(d.canonical, d.owners - {n}, d.claims[c := d.claims[c].(owner := Some(d.owners[n]))]))
    else None
  }

  function RenameClaimToClaim(d: Dir, prior: ClaimId, c: ClaimId): Option<Dir> {
    if HasOwnerSlot(d, prior) && c in d.claims && prior != c && Replaceable(d.claims[c].owner) then
      Some(d.(claims := d.claims[c := d.claims[c].(owner := d.claims[prior].owner)]
                                [prior := d.claims[prior].(owner := None)]))
    else None
  }

  /** `rename` of the canonical path moves whatever is there, whoever put it. */
  function RenameCanonicalToTomb(d: Dir, c: ClaimId): Option<Dir> {
    if !d.canonical.Absent? && HasOwnerSlot(d, c) then
      Some(Dir(Absent, d.owners,
               d.claims[c := d.claims[c].(owner := Some(d.claims[c].owner.value.(tomb := d.canonical)))]))
    else None
  }

  function RenameOwnerToRetired(d: Dir, c: ClaimId): Option<Dir> {
    if HasOwnerSlot(d, c) && Replaceable(d.claims[c].retired) then
      Some(d.(claims := d.claims[c := d.claims[c].(owner := None, retired := d.claims[c].owner)]))
    else None
  }

  function RemoveRetiredTomb(d: Dir, c: ClaimId): Option<Dir> {
    if c in d.claims && d.claims[c].retired.Some? && d.claims[c].retired.value.tomb.Link? then
      Some(d.(claims := d.claims[c := d.claims[c].(retired := Some(d.claims[c].retired.value.(tomb := Absent)))]))
    else None
  }

  function RemoveRetiredRecord(d: Dir, c: ClaimId): Option<Dir> {
    if c in d.claims && d.claims[c].retired.Some? && d.claims[c].retired.value.record.Some? then
      Some(d.(claims := d.claims[c := d.claims[c].(retired := Some(d.claims[c].retired.value.(record := None)))]))
    else None
  }

  function RemoveRetiredDir(d: Dir, c: ClaimId): Option<Dir> {
    if c in d.claims && d.claims[c].retired == Some(Slot(None, Absent)) then
      Some(d.(claims := d.claims[c := d.claims[c].(retired := None)]))
    else None
  }

  function RemoveClaimRecord(d: Dir, c: ClaimId): Option<Dir> {
    if c in d.claims && d.claims[c].record.Some? then
      Some(d.(claims := d.claims[c := d.claims[c].(record := None)]))
    else None
  }

  function RemoveClaimDir(d: Dir, c: ClaimId): Option<Dir> {
    if c in d.claims && d.claims[c] == ClaimDir(None, None, None) then
      Some(d.(claims := d.claims - {c}))
    else None
  }

  function RemoveOwnerRecord(d: Dir, n: Nonce): Option<Dir> {
    if n in d.owners && d.owners[n].record.Some? then
      Some(d.(owners := d.owners[n := d.owners[n].(record := None)]))
    else None
  }

  function RemoveOwnerDir(d: Dir, n: Nonce): Option<Dir> {
    if n in d.owners && d.owners[n] == Slot(None, Absent) then
      Some(d.(owners := d.owners - {n}))
    else None
  }
}
