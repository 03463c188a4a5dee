/**
 Replacing a vault directory: importing a storage file, restoring a backup, changing the
 password. Each await may complete, reject, or be the last thing the process does; a
 process that dies runs no `finally`. What a method promises when it stops is therefore
 promised at every point where it can stop.
 */
module VaultRotation {
  import opened Prelude
  import B = BackupStore

  /** The part of a vault that cannot be recreated. */
  datatype Directory = Directory(database: nat, fragments: nat)

  /** Directory names: the vault, the random staging name, and the dated names of replaced vaults. */
  datatype Name = Root | Stage | Before(stamp: nat)

  /** What becomes of one await; `done` tells whether the effect had happened all the same. */
  datatype Fate = Completes | Rejects(done: bool) | Dies(done: bool)

  datatype Progress = Going | Failed | Dead {
    predicate IsFailure() {
      !Going?
    }

    function PropagateFailure(): Progress
      requires IsFailure()
    {
      this
    }
  }

  type Dirs = map<Name, Directory>

  /** `d` is the vault, or one of the replaced vaults kept beside it. */
  ghost predicate Keeps(dirs: Dirs, d: Directory) {
    exists n :: n in dirs && n != Stage && dirs[n] == d
  }

  /** No kept vault was lost. */
  ghost predicate KeepsAll(before: Dirs, after: Dirs) {
    forall d :: Keeps(before, d) ==> Keeps(after, d)
  }

  function Moved(dirs: Dirs, from: Name, to: Name): Dirs
    requires from in dirs
  {
    (dirs - {from})[to := dirs[from]]
  }

  lemma MovingKeeps(dirs: Dirs, from: Name, to: Name)
    requires from in dirs && to !in dirs && to != Stage
    ensures KeepsAll(dirs, Moved(dirs, from, to))
  {
    forall d | Keeps(dirs, d) ensures Keeps(Moved(dirs, from, to), d) {
      var n :| n in dirs && n != Stage && dirs[n] == d;
      assert Moved(dirs, from, to)[if n == from then to else n] == d;
    }
  }

  /** Nothing but the staging directory differs. */
  ghost predicate SameElsewhere(before: Dirs, after: Dirs) {
    forall n :: n != Stage ==> (n in before <==> n in after) && (n in before ==> before[n] == after[n])
  }

  lemma StagingKeeps(dirs: Dirs, after: Dirs)
    requires SameElsewhere(dirs, after)
    ensures KeepsAll(dirs, after)
  {
  }

  class Disk {
    var dirs: Dirs

    /** rename(2): atomic; it refuses a missing source and an occupied target. */
    method Rename(from: Name, to: Name, fate: Fate) returns (p: Progress)
      modifies this
      ensures p.Failed? ==> dirs == old(dirs)
      ensures !p.Failed? && dirs != old(dirs) ==>
                from in old(dirs) && to !in old(dirs) && dirs == Moved(old(dirs), from, to)
      ensures p.Going? <==> fate.Completes? && from in old(dirs) && to !in old(dirs)
      ensures p.Going? ==> dirs == Moved(old(dirs), from, to)
      ensures p.Failed? <==> fate.Rejects? || from !in old(dirs) || to in old(dirs)
      ensures to != Stage ==> KeepsAll(old(dirs), dirs)
    {
      if fate.Rejects? || from !in dirs || to in dirs { return Failed; }
      if fate == Dies(false) { return Dead; }
      if to != Stage { MovingKeeps(dirs, from, to); }
      dirs := (dirs - {from})[to := dirs[from]];
      p := if fate.Dies? then Dead else Going;
    }

    /** Everything that fills the staging directory; stopped half-way, it leaves anything there. */
    method Build(content: Directory, partial: Directory, fate: Fate) returns (p: Progress)
      modifies this
      ensures SameElsewhere(old(dirs), dirs) && KeepsAll(old(dirs), dirs)
      ensures Stage in dirs && (p.Going? ==> dirs[Stage] == content)
      ensures (p.Going? <==> fate.Completes?) && (p.Failed? <==> fate.Rejects?)
    {
      dirs := dirs[Stage := if fate.Completes? then content else partial];
      StagingKeeps(old(dirs), dirs);
      p := match fate case Completes => Going case Rejects(_) => Failed case Dies(_) => Dead;
    }

    method RemoveStage(fate: Fate) returns (p: Progress)
      modifies this
      ensures SameElsewhere(old(dirs), dirs) && KeepsAll(old(dirs), dirs)
      ensures p.Going? ==> Stage !in dirs
      ensures (p.Going? <==> fate.Completes?) && (p.Failed? <==> fate.Rejects?)
    {
      if fate.Completes? || fate.done { dirs := dirs - {Stage}; }
      StagingKeeps(old(dirs), dirs);
      p := match fate case Completes => Going case Rejects(_) => Failed case Dies(_) => Dead;
    }
  }

  /** An await that touches neither the directories nor the relay. */
  method Await(fate: Fate) returns (p: Progress)
    ensures p.Going? <==> fate.Completes?
    ensures p.Dead? <==> fate.Dies?
  {
    p := match fate case Completes => Going case Rejects(_) => Failed case Dies(_) => Dead;
  }

  // ----- importing and restoring -----

  /** The dated name is free for the directory to be replaced, and both renames go through. */
  ghost predicate CanSwap(dirs: Dirs, stamp: nat, aside: Fate, into: Fate) {
    Stage in dirs && into == Completes && (Root in dirs ==> Before(stamp) !in dirs && aside == Completes)
  }

  /** What was staged is the vault, and what was the vault is kept under its dated name. */
  ghost predicate IsSwapped(before: Dirs, after: Dirs, stamp: nat)
    requires Stage in before
  {
    && Root in after && after[Root] == before[Stage] && Stage !in after
    && (Root in before ==> Before(stamp) in after && after[Before(stamp)] == before[Root])
    && forall n :: n !in {Root, Stage, Before(stamp)} ==> (n in after <==> n in before) && (n in before ==> after[n] == before[n])
  }

  /** The swap of importStorage moves the old directory back when the new one cannot take its place. */
  method SwapOrUndo(disk: Disk, stamp: nat, fates: nat -> Fate) returns (p: Progress)
    modifies disk
    ensures KeepsAll(old(disk.dirs), disk.dirs)
    ensures p.Going? <==> CanSwap(old(disk.dirs), stamp, fates(1), fates(2))
    ensures p.Going? ==> IsSwapped(old(disk.dirs), disk.dirs, stamp)
    ensures p.Failed? && Root in old(disk.dirs) && fates(3).Completes? ==>
              Root in disk.dirs && disk.dirs[Root] == old(disk.dirs)[Root]
  {
    if Root in disk.dirs { :- disk.Rename(Root, Before(stamp), fates(1)); }
    p := disk.Rename(Stage, Root, fates(2));
    if p.Failed? && Before(stamp) in disk.dirs {
      var undone := disk.Rename(Before(stamp), Root, fates(3));
      if undone.Dead? { return Dead; }
    }
  }

  method ImportStorage(disk: Disk, stamp: nat, content: Directory, partial: Directory,
      fates: nat -> Fate) returns (p: Progress)
    modifies disk
    ensures KeepsAll(old(disk.dirs), disk.dirs)
    ensures p.Going? <==>
              && fates(0) == Completes && CanSwap(old(disk.dirs)[Stage := content], stamp, fates(1), fates(2))
              && fates(4) == Completes && fates(5) == Completes
    ensures p.Going? ==> IsSwapped(old(disk.dirs)[Stage := content], disk.dirs, stamp)
    ensures !p.Dead? && fates(5) == Completes ==> Stage !in disk.dirs
  {
    p := disk.Build(content, partial, fates(0));
    if p.Going? { p := SwapOrUndo(disk, stamp, fates); }
    if p.Going? { p := Await(fates(4)); }
    if p.Dead? { return; }
    var cleaned := disk.RemoveStage(fates(5));
    if !cleaned.Going? { p := cleaned; }
  }

  /** The swap of restoreSecure and of changeSecurePassword has no way back. */
  method Swap(disk: Disk, stamp: nat, fates: nat -> Fate) returns (p: Progress)
    modifies disk
    ensures KeepsAll(old(disk.dirs), disk.dirs)
    ensures p.Going? <==> CanSwap(old(disk.dirs), stamp, fates(10), fates(11))
    ensures p.Going? ==> IsSwapped(old(disk.dirs), disk.dirs, stamp)
    ensures Root in old(disk.dirs) && Root !in disk.dirs ==>
              !p.Going? && Before(stamp) in disk.dirs && disk.dirs[Before(stamp)] == old(disk.dirs)[Root]
  {
    if Root in disk.dirs { :- disk.Rename(Root, Before(stamp), fates(10)); }
    p := disk.Rename(Stage, Root, fates(11));
  }

  /** Also the branch of changeSecurePassword for a vault without a backup on the relay. */
  method RestoreSecure(disk: Disk, stamp: nat, content: Directory, partial: Directory,
      fates: nat -> Fate) returns (p: Progress)
    modifies disk
    ensures KeepsAll(old(disk.dirs), disk.dirs)
    ensures p.Going? <==>
              && fates(0) == Completes && fates(1) == Completes && fates(2) == Completes && fates(3) == Completes
              && CanSwap(old(disk.dirs)[Stage := content], stamp, fates(10), fates(11))
    ensures p.Going? ==> IsSwapped(old(disk.dirs)[Stage := content], disk.dirs, stamp)
    ensures !p.Dead? && fates(3) == Completes ==> Stage !in disk.dirs
  {
    p := Await(fates(0));
    if p.Going? { p := disk.Build(content, partial, fates(1)); }
    if p.Going? { p := Swap(disk, stamp, fates); }
    if p.Going? { p := Await(fates(2)); }
    if p.Dead? { return; }
    var cleaned := disk.RemoveStage(fates(3));
    if !cleaned.Going? { p := cleaned; }
  }

  // ----- changing the password with a backup on the relay -----

  /** The end of the DELETE request: an answer, a rejection without one, or the end of the process. */
  datatype Removal = Answers(cut: B.Cut) | Silent(done: bool) | Ends(done: bool)

  type Rows = map<B.Token, B.Row>

  /** The relay's rows by lookup token; only this vault's own requests concern its tokens. */
  class RelayRows {
    var rows: Rows

    method Has(token: B.Token, fate: Fate) returns (p: Progress, found: bool)
      ensures (p.Going? <==> fate.Completes?) && (p.Going? ==> found == (token in rows))
    {
      p := Await(fate);
      found := token in rows;
    }

    /** A backup upload; when its reply is lost it may have been stored all the same. */
    method Upload(token: B.Token, row: B.Row, fate: Fate) returns (p: Progress)
      modifies this
      ensures rows == old(rows) || rows == old(rows)[token := row]
      ensures p.Going? ==> rows == old(rows)[token := row]
      ensures p.Going? <==> fate.Completes?
    {
      if fate.Completes? || fate.done { rows := rows[token := row]; }
      p := Await(fate);
    }

    /** A scheduled backup of the same vault, which no critical section holds back. */
    method Backup(token: B.Token)
      requires token in rows
      modifies this
      ensures rows == old(rows)[token := old(rows)[token].(version := old(rows)[token].version + 1)]
    {
      rows := rows[token := rows[token].(version := rows[token].version + 1)];
    }

    /** The request is rejected when no answer comes, whether or not it took effect. */
    method Remove(token: B.Token, version: nat, signer: B.Key, removal: Removal) returns (p: Progress, reply: Option<B.Reply>)
      modifies this
      ensures removal.Answers? <==> reply.Some?
      ensures removal.Answers? ==> (rows, reply.value) == B.DeleteRow(old(rows), old(rows), token, version, signer, removal.cut)
      ensures rows == old(rows) || rows == old(rows) - {token}
      ensures p.Going? <==> reply.Some? && reply.value.Stored?
      ensures p.Dead? <==> removal.Ends?
    {
      var cut := if removal.Answers? then removal.cut else B.Unbroken;
      var (after, answer) := B.DeleteRow(rows, rows, token, version, signer, cut);
      if removal.Answers? || removal.done { rows := after; }
      reply := if removal.Answers? then Some(answer) else None;
      p := if removal.Ends? then Dead else if reply.Some? && reply.value.Stored? then Going else Failed;
    }
  }

  /** The old password opens the vault: its directory is in place and its seventh share on the relay. */
  ghost predicate OldWorks(dirs: Dirs, rows: Rows, vault: Directory, token: B.Token) {
    Root in dirs && dirs[Root] == vault && token in rows
  }

  /** The new credentials are free, both uploads are answered and the new vault is staged. */
  ghost predicate GetsToRemoval(rows: Rows, next: B.Token, fates: nat -> Fate) {
    next !in rows && forall i :: 0 <= i <= 3 ==> fates(i) == Completes
  }

  /**
   The cloud branch up to the removal of the old row: `synced` tells that the first upload
   has settled. The directories outside the staging area are not touched yet.
  */
  method ReplaceOnRelay(disk: Disk, relay: RelayRows, prior: B.Token, next: B.Token, backup: B.Row, rotated: B.Row,
      raced: bool, content: Directory, partial: Directory, fates: nat -> Fate, removal: Removal)
    returns (p: Progress, synced: bool, reported: Option<B.Refusal>)
    requires prior != next
    modifies disk, relay
    ensures SameElsewhere(old(disk.dirs), disk.dirs) && (p.Going? ==> disk.dirs == old(disk.dirs)[Stage := content])
    ensures p.Going? <==> GetsToRemoval(old(relay.rows), next, fates) && removal == Answers(B.Unbroken) && !raced
    ensures p.Going? ==> relay.rows == (old(relay.rows) - {prior})[next := rotated]
    ensures GetsToRemoval(old(relay.rows), next, fates) ==> synced
    ensures synced || prior in old(relay.rows) ==> prior in relay.rows || next in relay.rows
    ensures !p.Going? ==> prior in old(relay.rows) ==> prior in relay.rows || next in relay.rows
    ensures reported == if GetsToRemoval(old(relay.rows), next, fates) && removal.Answers? && removal.cut != B.Unbroken
                        then Some(B.Interrupted)
                        else if GetsToRemoval(old(relay.rows), next, fates) && removal.Answers? && raced
                        then Some(B.Conflict) else None
    ensures reported.Some? ==> (prior in relay.rows <==> reported.value == B.Conflict || removal.cut == B.BeforeDelete || raced)
  {
    synced, reported := false, None;
    var found: bool;
    p, found := relay.Has(next, fates(0));
    if p.Going? && found { p := Failed; }
    if p.Going? { p := relay.Upload(prior, backup, fates(1)); }
    if p.Going? {
      synced := true;
      p := disk.Build(content, partial, fates(2));
    }
    if p.Going? { p := relay.Upload(next, rotated, fates(3)); }
    if p.Going? {
      if raced { relay.Backup(prior); }
      var reply;
      p, reply := relay.Remove(prior, backup.version, backup.content.writer, removal);
      if reply.Some? && reply.value.Refused? { reported := Some(reply.value.reason); }
    }
  }

  /**
   The cloud branch. At every point where it can stop: no kept vault is lost; once the
   first upload has settled (`synced`), the relay holds the old row or the new one; and
   if the old password worked before, it still does, or the new one does (`next` in
   rows suffices to restore). The old directory leaves its place only after the new row
   is stored and the old one is gone. It succeeds exactly when every await does, the new
   credentials were free, no other backup came in between, and the dated name is free;
   once the removal was answered with success, only a rename or what follows it can fail.

   `reported` is the status behind the error that calls the password unchanged. It is set
   only when the relay answered: a rejected request surfaces as itself. After the
   relay's own refusals the error is true. After a broken connection it is true exactly
   when the DELETE had not been reached.
   */
  method RotateOnRelay(disk: Disk, relay: RelayRows, prior: B.Token, next: B.Token, backup: B.Row, rotated: B.Row,
      raced: bool, stamp: nat, content: Directory, partial: Directory, fates: nat -> Fate, removal: Removal)
    returns (p: Progress, synced: bool, reported: Option<B.Refusal>)
    requires Root in disk.dirs && prior != next
    modifies disk, relay
    ensures KeepsAll(old(disk.dirs), disk.dirs)
    ensures p.Going? <==>
              && GetsToRemoval(old(relay.rows), next, fates) && removal == Answers(B.Unbroken) && !raced
              && CanSwap(old(disk.dirs)[Stage := content], stamp, fates(10), fates(11))
              && fates(5) == Completes && fates(6) == Completes
    ensures p.Going? ==> IsSwapped(old(disk.dirs)[Stage := content], disk.dirs, stamp)
    ensures GetsToRemoval(old(relay.rows), next, fates) && removal == Answers(B.Unbroken) && !raced ==>
              relay.rows == (old(relay.rows) - {prior})[next := rotated]
    ensures !p.Dead? && fates(6) == Completes ==> Stage !in disk.dirs
    ensures synced ==> prior in relay.rows || next in relay.rows
    ensures prior in old(relay.rows) ==>
              OldWorks(disk.dirs, relay.rows, old(disk.dirs[Root]), prior) || next in relay.rows
    ensures Root !in disk.dirs || disk.dirs[Root] != old(disk.dirs[Root]) ==> next in relay.rows && prior !in relay.rows
    ensures reported.Some? <==>
              GetsToRemoval(old(relay.rows), next, fates) && removal.Answers? && (removal.cut != B.Unbroken || raced)
    ensures reported.Some? ==> Root in disk.dirs && disk.dirs[Root] == old(disk.dirs[Root])
    ensures reported.Some? && reported.value != B.Interrupted ==>
              OldWorks(disk.dirs, relay.rows, old(disk.dirs[Root]), prior)
    ensures reported == Some(B.Interrupted) ==>
              (OldWorks(disk.dirs, relay.rows, old(disk.dirs[Root]), prior) <==> removal.cut == B.BeforeDelete || raced)
  {
    hide CanSwap, GetsToRemoval;
    p, synced, reported := ReplaceOnRelay(disk, relay, prior, next, backup, rotated, raced, content, partial, fates, removal);
    StagingKeeps(old(disk.dirs), disk.dirs);
    if p.Going? { p := Swap(disk, stamp, fates); }
    if p.Going? { p := Await(fates(5)); }
    if p.Dead? { return; }
    var cleaned := disk.RemoveStage(fates(6));
    if !cleaned.Going? { p := cleaned; }
  }
}
