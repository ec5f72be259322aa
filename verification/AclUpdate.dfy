/** The worktree script's POSIX ACL edits: granting the worker, revoking it, and handing a file
    back to the control account, with the mask recomputed in a loop over the entries. */
module AclUpdate {
  import opened Wrappers

  datatype Tag = Owner | User | GroupOwner | Group | Mask | Other
  datatype Key = Key(tag: Tag, qualifier: Option<nat>)

  /** The bits 4, 2 and 1 of a permission set. */
  datatype Rights = Rights(read: bool, write: bool, execute: bool)

  const NOTHING := Rights(false, false, false)
  const READ := Rights(true, false, false)
  const WRITE := Rights(false, true, false)
  const ENTER := Rights(true, false, true)
  const CHANGE := Rights(true, true, false)
  const FULL := Rights(true, true, true)

  function Both(a: Rights, b: Rights): Rights {
    Rights(a.read && b.read, a.write && b.write, a.execute && b.execute)
  }

  function Either(a: Rights, b: Rights): Rights {
    Rights(a.read || b.read, a.write || b.write, a.execute || b.execute)
  }

  predicate Includes(have: Rights, want: Rights) { Both(have, want) == want }

  type Acl = map<Key, Rights>

  datatype Operation = Grant | Revoke | Handoff

  const OWNER := Key(Owner, None)
  const MASK := Key(Mask, None)
  const OTHER := Key(Other, None)
  const GROUP := Key(GroupOwner, None)

  function NamedUser(uid: nat): Key { Key(User, Some(uid)) }

  /** The entries the mask applies to. */
  predicate GroupClass(key: Key) { key.tag in {User, GroupOwner, Group} }

  /** What the kernel accepts: the three basic entries, qualified names, and a mask whenever
      there is a named entry (acl(5), section VALID ACLs). */
  ghost predicate Valid(acl: Acl) {
    && OWNER in acl && GROUP in acl && OTHER in acl
    && (forall key :: key in acl ==> (key.tag in {User, Group} <==> key.qualifier.Some?))
    && ((exists key :: key in acl && key.tag in {User, Group}) ==> MASK in acl)
  }

  function MaskOf(acl: Acl): Rights { if MASK in acl then acl[MASK] else FULL }

  // ------------------------------------------------------------------ access check

  /** The group entries that match a process. */
  ghost predicate Matches(acl: Acl, key: Key, ownGroup: nat, groups: set<nat>) {
    && key in acl
    && ((key == GROUP && ownGroup in groups) || (key.tag == Group && key.qualifier.Some? && key.qualifier.value in groups))
  }

  /** The access check algorithm of acl(5): the owner entry, else the named user under the mask,
      else any matching group entry under the mask, else the others. */
  ghost predicate Permits(acl: Acl, owner: nat, ownGroup: nat, uid: nat, groups: set<nat>, want: Rights)
    requires Valid(acl)
  {
    if uid == owner then Includes(acl[OWNER], want)
    else if NamedUser(uid) in acl then Includes(Both(acl[NamedUser(uid)], MaskOf(acl)), want)
    else if exists key :: Matches(acl, key, ownGroup, groups) then
      exists key :: Matches(acl, key, ownGroup, groups) && Includes(Both(acl[key], MaskOf(acl)), want)
    else Includes(acl[OTHER], want)
  }

  // ------------------------------------------------------------------ one edit

  predicate Reads(acl: Acl, key: Key) { key in acl && GroupClass(key) && acl[key].read }
  predicate Writes(acl: Acl, key: Key) { key in acl && GroupClass(key) && acl[key].write }
  predicate Executes(acl: Acl, key: Key) { key in acl && GroupClass(key) && acl[key].execute }

  /** The mask is exactly the union of the group class: it hides nothing and adds nothing. */
  ghost predicate MaskExact(acl: Acl, mask: Rights) {
    && (mask.read <==> exists key :: Reads(acl, key))
    && (mask.write <==> exists key :: Writes(acl, key))
    && (mask.execute <==> exists key :: Executes(acl, key))
  }

  function GrantedRights(directory: bool, executable: bool, pointer: bool): Rights {
    if pointer then READ else if directory || executable then FULL else CHANGE
  }

  function HandoffRights(directory: bool, executable: bool): Rights {
    if directory || executable then ENTER else READ
  }

  /** What one operation makes of one list. */
  ghost predicate Edited(before: Acl, after: Acl, operation: Operation, worker: nat, control: nat, rights: Rights,
                         ownerBits: Rights)
  {
    match operation
    case Grant =>
      && after.Keys == before.Keys + {NamedUser(worker), MASK}
      && after[NamedUser(worker)] == rights
      && MaskExact(after, after[MASK])
      && forall key :: key in before && key !in {NamedUser(worker), MASK} ==> after[key] == before[key]
    case Revoke =>
      if NamedUser(worker) !in before then after == before
      else
        && after.Keys == (before.Keys - {NamedUser(worker)}) + {MASK}
        && MaskExact(after, after[MASK])
        && forall key :: key in before && key !in {NamedUser(worker), MASK} ==> after[key] == before[key]
    case Handoff =>
      && after.Keys == before.Keys + {NamedUser(control), MASK}
      && after[NamedUser(control)] == rights && after[MASK] == rights
      && forall key :: key in before && key !in {NamedUser(control), MASK} ==>
           after[key] == if key == OWNER then Either(before[key], ownerBits) else before[key]
  }

  /** The basic entries a missing default list starts from. */
  function Basic(access: Acl): Acl { map key | key in access && key.tag in {Owner, GroupOwner, Other} :: access[key] }

  // ------------------------------------------------------------------ the editor

  class AclFile {
    const directory: bool
    const executable: bool
    const owner: nat
    var access: Acl
    var inherited: Acl

    /** A directory's default list is empty or valid; a file has none. */
    ghost predicate Ok()
      reads this
    {
      Valid(access) && (inherited == map[] || (directory && Valid(inherited)))
    }

    constructor (directory: bool, executable: bool, owner: nat, access: Acl, inherited: Acl)
      requires Valid(access) && (inherited == map[] || (directory && Valid(inherited)))
      ensures Ok() && this.directory == directory && this.executable == executable && this.owner == owner
      ensures this.access == access && this.inherited == inherited
    {
      this.directory, this.executable, this.owner := directory, executable, owner;
      this.access, this.inherited := access, inherited;
    }
  }

  /** Union the rights of the group class, entry by entry. */
  method ComputeMask(entries: Acl) returns (mask: Rights)
    ensures MaskExact(entries, mask)
  {
    mask := NOTHING;
    var left := entries.Keys;
    while left != {}
      invariant left <= entries.Keys
      invariant mask.read <==> exists key :: Reads(entries, key) && key !in left
      invariant mask.write <==> exists key :: Writes(entries, key) && key !in left
      invariant mask.execute <==> exists key :: Executes(entries, key) && key !in left
      decreases left
    {
      var key :| key in left;
      ghost var before := mask;
      if GroupClass(key) { mask := Either(mask, entries[key]); }
      assert mask.read <==> before.read || Reads(entries, key);
      assert mask.write <==> before.write || Writes(entries, key);
      assert mask.execute <==> before.execute || Executes(entries, key);
      left := left - {key};
    }
  }

  class AclEditor {
    const worker: nat
    const control: nat

    constructor (worker: nat, control: nat)
      ensures this.worker == worker && this.control == control
    {
      this.worker, this.control := worker, control;
    }

    /** Grant or revoke in one list; `None` when there was nothing to revoke. */
    method EditWorker(list: Acl, operation: Operation, rights: Rights) returns (changed: Option<Acl>)
      requires operation != Handoff
      ensures changed.Some? ==> Edited(list, changed.value, operation, worker, control, rights, NOTHING)
      ensures changed.None? <==> operation == Revoke && NamedUser(worker) !in list
    {
      var entries := list;
      var key := NamedUser(worker);
      if operation == Grant {
        entries := entries[key := rights];
      } else if key !in entries {
        return None;
      } else {
        entries := entries - {key};
      }
      var mask := ComputeMask(entries);
      MaskIsNotMasked(entries, mask);
      entries := entries[MASK := mask];
      changed := Some(entries);
    }

    /** Hand one list back to the control account. */
    method EditControl(list: Acl, rights: Rights, ownerBits: Rights) returns (entries: Acl)
      requires OWNER in list
      ensures Edited(list, entries, Handoff, worker, control, rights, ownerBits)
    {
      entries := list[NamedUser(control) := rights];
      entries := entries[MASK := rights];
      entries := entries[OWNER := Either(entries[OWNER], ownerBits)];
    }

    /** One operation on a file: its access list, then, for a directory, its default list, which
        starts from the basic entries the access list had. */
    method Update(file: AclFile, operation: Operation, pointer: bool)
      requires file.Ok() && (pointer ==> !file.directory)
      modifies file
      ensures file.Ok()
      ensures Edited(old(file.access), file.access, operation, worker, control,
        AccessRights(file, operation, pointer), OwnerBits(file))
      ensures !file.directory ==> file.inherited == old(file.inherited)
      ensures file.directory && old(file.inherited) == map[] && operation == Revoke ==> file.inherited == map[]
      ensures file.directory && (old(file.inherited) != map[] || operation != Revoke) ==>
        Edited(if old(file.inherited) == map[] then Basic(old(file.access)) else old(file.inherited), file.inherited,
          operation, worker, control, AccessRights(file, operation, pointer), NOTHING)
    {
      var access := file.access;
      BasicIsValid(access);
      var isDefault := false;
      file.access := EditList(file, access, operation, AccessRights(file, operation, pointer), OwnerBits(file));
      if file.directory {
        var entries := file.inherited;
        if entries == map[] {
          if operation == Revoke { return; }
          entries := Basic(access);
        }
        file.inherited := EditList(file, entries, operation, AccessRights(file, operation, pointer), NOTHING);
      }
    }

    function AccessRights(file: AclFile, operation: Operation, pointer: bool): Rights {
      if operation == Handoff then HandoffRights(file.directory, file.executable)
      else GrantedRights(file.directory, file.executable, pointer)
    }

    /** What the control account gains as the owner of the file. */
    function OwnerBits(file: AclFile): Rights {
      if file.owner == control then (if file.directory then ENTER else READ) else NOTHING
    }

    method EditList(file: AclFile, list: Acl, operation: Operation, rights: Rights, ownerBits: Rights) returns (entries: Acl)
      requires Valid(list)
      ensures Valid(entries) && Edited(list, entries, operation, worker, control, rights, ownerBits)
    {
      if operation == Handoff {
        entries := EditControl(list, rights, ownerBits);
      } else {
        var changed := EditWorker(list, operation, rights);
        entries := changed.GetOr(list);
      }
      EditedIsValid(list, entries, operation, worker, control, rights, ownerBits);
    }
  }

  /** The mask entry is outside the group class, so storing it changes no union. */
  lemma MaskIsNotMasked(entries: Acl, mask: Rights)
    requires MaskExact(entries, mask)
    ensures MaskExact(entries[MASK := mask], mask)
  {
    var stored := entries[MASK := mask];
    assert forall key :: Reads(stored, key) <==> Reads(entries, key);
    assert forall key :: Writes(stored, key) <==> Writes(entries, key);
    assert forall key :: Executes(stored, key) <==> Executes(entries, key);
  }

  lemma BasicIsValid(access: Acl)
    requires Valid(access)
    ensures Valid(Basic(access)) && Basic(access) != map[]
  {
    assert OWNER in Basic(access);
  }

  /** Every list the script writes is one the kernel accepts. */
  lemma EditedIsValid(before: Acl, after: Acl, operation: Operation, worker: nat, control: nat, rights: Rights, ownerBits: Rights)
    requires Valid(before) && Edited(before, after, operation, worker, control, rights, ownerBits)
    ensures Valid(after)
  {
  }

  // ------------------------------------------------------------------ what the edits achieve

  /** What an entry of the group class comes to under the mask. */
  function EffectiveRights(acl: Acl, key: Key): Rights
    requires key in acl
  {
    Both(acl[key], MaskOf(acl))
  }

  /** After a grant the mask hides nothing of any entry, whatever it hid before. */
  lemma GrantHidesNothing(before: Acl, after: Acl, worker: nat, control: nat, rights: Rights, key: Key)
    requires Edited(before, after, Grant, worker, control, rights, NOTHING) && key in after && GroupClass(key)
    ensures EffectiveRights(after, key) == after[key]
  {
    assert Reads(after, key) <==> after[key].read;
    assert Writes(after, key) <==> after[key].write;
    assert Executes(after, key) <==> after[key].execute;
  }

  /** After a grant the worker has exactly the granted rights, if and only if the file is not its
      own; for its own file the owner entry decides instead. */
  lemma GrantIsExact(before: Acl, after: Acl, worker: nat, control: nat, rights: Rights,
                     owner: nat, ownGroup: nat, groups: set<nat>)
    requires Valid(before) && Valid(after) && Edited(before, after, Grant, worker, control, rights, NOTHING)
    ensures (forall want :: Permits(after, owner, ownGroup, worker, groups, want) <==> Includes(rights, want))
       <==> (owner != worker || after[OWNER] == rights)
  {
    GrantHidesNothing(before, after, worker, control, rights, NamedUser(worker));
    if owner == worker && forall want :: Permits(after, owner, ownGroup, worker, groups, want) <==> Includes(rights, want) {
      assert Permits(after, owner, ownGroup, worker, groups, READ) <==> Includes(rights, READ);
      assert Permits(after, owner, ownGroup, worker, groups, WRITE) <==> Includes(rights, WRITE);
      assert Permits(after, owner, ownGroup, worker, groups, Rights(false, false, true))
        <==> Includes(rights, Rights(false, false, true));
    }
  }

  /** After a handoff nobody but the owner and the others can write: every process the group
      class decides for is refused. */
  lemma HandoffStopsWriting(before: Acl, after: Acl, worker: nat, control: nat, directory: bool, executable: bool,
                            ownerBits: Rights, owner: nat, ownGroup: nat, uid: nat, groups: set<nat>)
    requires Valid(before) && Valid(after)
    requires Edited(before, after, Handoff, worker, control, HandoffRights(directory, executable), ownerBits)
    requires uid != owner
    requires NamedUser(uid) in after || exists key :: Matches(after, key, ownGroup, groups)
    ensures !Permits(after, owner, ownGroup, uid, groups, WRITE)
  {
  }

  /** After a handoff the control account can read, and enter a directory, owner or not. */
  lemma HandoffLetsControlRead(before: Acl, after: Acl, worker: nat, control: nat, directory: bool, executable: bool,
                               owner: nat, ownGroup: nat, groups: set<nat>)
    requires Valid(before) && Valid(after)
    requires Edited(before, after, Handoff, worker, control, HandoffRights(directory, executable),
      if owner == control then (if directory then ENTER else READ) else NOTHING)
    ensures Permits(after, owner, ownGroup, control, groups, READ)
    ensures directory ==> Permits(after, owner, ownGroup, control, groups, ENTER)
  {
  }

  /** After a revoke the worker has no entry, so it has only what its groups or everybody has. */
  lemma RevokeRemoves(before: Acl, after: Acl, worker: nat, control: nat, rights: Rights)
    requires Edited(before, after, Revoke, worker, control, rights, NOTHING)
    ensures NamedUser(worker) !in after
  {
  }

  /** A grant and the revoke after it leave every entry but the mask as it was, when the worker
      had none before. */
  lemma GrantThenRevoke(first: Acl, granted: Acl, last: Acl, worker: nat, control: nat, rights: Rights)
    requires Edited(first, granted, Grant, worker, control, rights, NOTHING) && NamedUser(worker) !in first
    requires Edited(granted, last, Revoke, worker, control, rights, NOTHING)
    ensures last.Keys == first.Keys + {MASK}
    ensures forall key :: key in first && key != MASK ==> last[key] == first[key]
    ensures MaskExact(first, last[MASK])
  {
    assert forall key :: Reads(last, key) <==> Reads(first, key);
    assert forall key :: Writes(last, key) <==> Writes(first, key);
    assert forall key :: Executes(last, key) <==> Executes(first, key);
  }

  // ------------------------------------------------------------------ whole sequences

  datatype Edit = Edit(operation: Operation, rights: Rights, ownerBits: Rights)

  /** Any sequence of operations on one list. */
  ghost predicate IsRun(lists: seq<Acl>, edits: seq<Edit>, worker: nat, control: nat) {
    && |lists| == |edits| + 1
    && forall k :: 0 <= k < |edits| ==>
         Edited(lists[k], lists[k + 1], edits[k].operation, worker, control, edits[k].rights, edits[k].ownerBits)
  }

  const OURS: set<Tag> := {Owner, Mask}

  /** Whatever the sequence of grants, revokes and handoffs, no entry but those of the owner, the
      worker, the control account and the mask ever changes, appears or disappears. */
  lemma {:induction false} OthersNeverChange(lists: seq<Acl>, edits: seq<Edit>, worker: nat, control: nat, n: nat, key: Key)
    requires IsRun(lists, edits, worker, control) && n < |lists|
    requires key.tag !in OURS && key !in {NamedUser(worker), NamedUser(control)}
    ensures key in lists[n] <==> key in lists[0]
    ensures key in lists[0] ==> lists[n][key] == lists[0][key]
  {
    if n > 0 {
      OthersNeverChange(lists, edits, worker, control, n - 1, key);
      var e := edits[n - 1];
      assert Edited(lists[n - 1], lists[n - 1 + 1], e.operation, worker, control, e.rights, e.ownerBits);
    }
  }

  /** The owner entry only ever gains the rights a handoff adds. */
  lemma {:induction false} OwnerOnlyGains(lists: seq<Acl>, edits: seq<Edit>, worker: nat, control: nat, n: nat)
    requires IsRun(lists, edits, worker, control) && n < |lists| && OWNER in lists[0]
    ensures OWNER in lists[n] && Includes(lists[n][OWNER], lists[0][OWNER])
    ensures !lists[0][OWNER].write && lists[n][OWNER].write ==>
      exists k :: 0 <= k < n && edits[k].operation == Handoff && edits[k].ownerBits.write
  {
    if n > 0 {
      OwnerOnlyGains(lists, edits, worker, control, n - 1);
      var e := edits[n - 1];
      assert Edited(lists[n - 1], lists[n - 1 + 1], e.operation, worker, control, e.rights, e.ownerBits);
    }
  }
}
