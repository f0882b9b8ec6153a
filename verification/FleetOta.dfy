/**
 The over-the-air update of scripts/fleet_agent.py: download, verify, swap by rename, roll back.
 Every file-system step may fail, and the power may go at any point, so the model records every
 state of the disk on the way.
 */
module FleetOta {
  import opened Bytes
  import opened Common

  type Content = seq<Byte>

  /** The binary, `<binary>.new` and `<binary>.bak`. */
  datatype Disk = Disk(binary: Option<Content>, staged: Option<Content>, backup: Option<Content>)

  datatype Request = Request(url: string, version: string, sha: string, path: string)

  /**
   What the outside does: the successive contents of `.new` while downloading, whether the download
   raises, and which of the later calls succeed.
   */
  datatype Luck = Luck(
    parts: seq<Content>,
    raises: bool,
    backupOk: bool,
    installOk: bool,
    chmodOk: bool,
    restoreOk: bool,
    removeOk: bool)

  datatype Outcome = Refused | Raised | Mismatch | SwapFailed | Installed

  predicate WellFormed(q: Request) { q.url != "" && q.version != "" && |q.sha| == 64 && q.path != "" }

  // ── On values ──

  function Staged(d: Disk, parts: seq<Content>): Disk {
    if parts == [] then d else d.(staged := Some(parts[|parts| - 1]))
  }

  function Downloads(d: Disk, parts: seq<Content>): seq<Disk> {
    if parts == [] then [] else Downloads(d, parts[..|parts| - 1]) + [Staged(d, parts)]
  }

  /** os.replace(binary, bak), when there is a binary. */
  function BackedUp(d: Disk): Disk {
    if d.binary.Some? then d.(binary := None, backup := d.binary) else d
  }

  /** os.replace(new, binary). */
  function Swapped(d: Disk): Disk { Disk(d.staged, None, d.backup) }

  function Removed(d: Disk, l: Luck): Disk { if l.removeOk then d.(staged := None) else d }

  /** The handler of a failed swap. */
  function RolledBack(d: Disk, l: Luck): Disk {
    if d.backup.Some? && d.binary.None? && l.restoreOk then d.(binary := d.backup, backup := None) else d
  }

  function Handled(d: Disk, l: Luck): seq<Disk> { [RolledBack(d, l), Removed(RolledBack(d, l), l)] }

  /** The swap on a verified download: the states it passes through and how it ends. */
  function Swap(d: Disk, l: Luck): (seq<Disk>, Outcome) {
    if d.binary.Some? && !l.backupOk then (Handled(d, l), SwapFailed)
    else
      var moved := BackedUp(d);
      if !l.installOk then ([moved] + Handled(moved, l), SwapFailed)
      else
        var installed := Swapped(moved);
        if !l.chmodOk then ([moved, installed] + Handled(installed, l), SwapFailed)
        else ([moved, installed], Installed)
  }

  /** handle_ota: every state of the disk after the first, and the outcome. */
  function Update(d: Disk, q: Request, digest: Content -> string, l: Luck): (seq<Disk>, Outcome) {
    if !WellFormed(q) then ([], Refused)
    else
      var got := Staged(d, l.parts);
      var before := Downloads(d, l.parts);
      if l.raises || got.staged.None? then (before, Raised)
      else if digest(got.staged.value) != q.sha then (before + [Removed(got, l)], Mismatch)
      else (before + Swap(got, l).0, Swap(got, l).1)
  }

  function Final(d: Disk, visited: seq<Disk>): Disk { if visited == [] then d else visited[|visited| - 1] }

  // ── In place ──

  /** The disk, with every state it has been in. */
  class Files {
    var disk: Disk
    ghost var visited: seq<Disk>

    constructor (d: Disk)
      ensures disk == d && visited == []
    {
      disk, visited := d, [];
    }

    method Write(d: Disk)
      modifies this
      ensures disk == d && visited == old(visited) + [d]
    {
      disk := d;
      visited := visited + [d];
    }

    method Download(parts: seq<Content>)
      modifies this
      ensures disk == Staged(old(disk), parts)
      ensures visited == old(visited) + Downloads(old(disk), parts)
    {
      for i := 0 to |parts|
        invariant disk == Staged(old(disk), parts[..i])
        invariant visited == old(visited) + Downloads(old(disk), parts[..i])
      {
        assert parts[..i + 1][..i] == parts[..i];
        Write(disk.(staged := Some(parts[i])));
      }
      assert parts[..|parts|] == parts;
    }

    method Handle(l: Luck)
      modifies this
      ensures visited == old(visited) + Handled(old(disk), l)
      ensures disk == Final(old(disk), Handled(old(disk), l))
    {
      if disk.backup.Some? && disk.binary.None? && l.restoreOk {
        Write(disk.(binary := disk.backup, backup := None));
      } else {
        Write(disk);
      }
      if l.removeOk { Write(disk.(staged := None)); } else { Write(disk); }
    }

    method Install(l: Luck) returns (outcome: Outcome)
      modifies this
      ensures visited == old(visited) + Swap(old(disk), l).0 && outcome == Swap(old(disk), l).1
      ensures disk == Final(old(disk), Swap(old(disk), l).0)
    {
      if disk.binary.Some? {
        if !l.backupOk {
          Handle(l);
          return SwapFailed;
        }
        Write(disk.(binary := None, backup := disk.binary));
      } else {
        Write(disk);
      }
      if !l.installOk {
        Handle(l);
        return SwapFailed;
      }
      Write(Disk(disk.staged, None, disk.backup));
      if !l.chmodOk {
        Handle(l);
        return SwapFailed;
      }
      return Installed;
    }

    method HandleOta(q: Request, digest: Content -> string, l: Luck) returns (outcome: Outcome)
      modifies this
      ensures visited == old(visited) + Update(old(disk), q, digest, l).0
      ensures outcome == Update(old(disk), q, digest, l).1
      ensures disk == Final(old(disk), Update(old(disk), q, digest, l).0)
    {
      hide Swap;
      ghost var before := Downloads(disk, l.parts);
      if q.url == "" || q.version == "" || |q.sha| != 64 || q.path == "" { return Refused; }
      Download(l.parts);
      if l.raises || disk.staged.None? { return Raised; }
      if digest(disk.staged.value) != q.sha {
        if l.removeOk { Write(disk.(staged := None)); } else { Write(disk); }
        assert visited == old(visited) + (before + [disk]);
        return Mismatch;
      }
      ghost var got := disk;
      outcome := Install(l);
      assert visited == old(visited) + (before + Swap(got, l).0);
      assert Swap(got, l).0 != [] by { SwapMoves(got, l); }
    }
  }

  lemma {:induction false} SwapMoves(d: Disk, l: Luck)
    ensures Swap(d, l).0 != []
  {
  }

  // ── Crash safety ──

  ghost predicate Holds(d: Disk, bytes: Content) { d.binary == Some(bytes) || d.backup == Some(bytes) }

  ghost predicate AllHold(ds: seq<Disk>, bytes: Content) { forall i :: 0 <= i < |ds| ==> Holds(ds[i], bytes) }

  lemma {:induction false} DownloadsTouchOnlyStaged(d: Disk, parts: seq<Content>)
    ensures forall i :: 0 <= i < |Downloads(d, parts)| ==>
      Downloads(d, parts)[i].binary == d.binary && Downloads(d, parts)[i].backup == d.backup
    ensures |Downloads(d, parts)| == |parts|
    ensures parts != [] ==> Downloads(d, parts)[|parts| - 1] == Staged(d, parts)
    decreases |parts|
  {
    if parts == [] {
    } else {
      DownloadsTouchOnlyStaged(d, parts[..|parts| - 1]);
    }
  }

  lemma {:induction false} SwapKeepsOld(d: Disk, l: Luck, bytes: Content)
    requires d.binary == Some(bytes)
    ensures AllHold(Swap(d, l).0, bytes)
  {
  }

  /** Whatever fails and wherever it stops, the old bytes are in the binary or in `.bak`. */
  lemma {:induction false} OldBytesSurvive(d: Disk, q: Request, digest: Content -> string, l: Luck, bytes: Content)
    requires d.binary == Some(bytes)
    ensures AllHold(Update(d, q, digest, l).0, bytes)
  {
    hide Swap;
    DownloadsTouchOnlyStaged(d, l.parts);
    SwapKeepsOld(Staged(d, l.parts), l, bytes);
  }

  /** The binary is absent, what it was, or bytes with the requested digest. */
  ghost predicate Trusted(x: Disk, d: Disk, sha: string, digest: Content -> string) {
    x.binary == None || x.binary == d.binary || digest(x.binary.value) == sha
  }

  ghost predicate AllTrusted(xs: seq<Disk>, d: Disk, sha: string, digest: Content -> string) {
    forall i :: 0 <= i < |xs| ==> Trusted(xs[i], d, sha, digest)
  }

  /** A rollback can only bring back trusted bytes: the old binary, or no stale backup of unknown bytes. */
  predicate BackupIsTrusted(d: Disk, sha: string, digest: Content -> string) {
    d.binary.Some? || d.backup.None? || digest(d.backup.value) == sha
  }

  lemma {:induction false} SwapIsTrusted(d: Disk, l: Luck, sha: string, digest: Content -> string)
    requires d.staged.Some? && digest(d.staged.value) == sha && BackupIsTrusted(d, sha, digest)
    ensures AllTrusted(Swap(d, l).0, d, sha, digest)
  {
  }

  lemma {:induction false} UpdateIsTrusted(d: Disk, q: Request, digest: Content -> string, l: Luck)
    requires BackupIsTrusted(d, q.sha, digest)
    ensures AllTrusted(Update(d, q, digest, l).0, d, q.sha, digest)
  {
    hide Swap;
    DownloadsTouchOnlyStaged(d, l.parts);
    var got := Staged(d, l.parts);
    if got.staged.Some? && digest(got.staged.value) == q.sha {
      SwapIsTrusted(got, l, q.sha, digest);
    }
  }

  /** With no binary, a stale `.bak` and a failing install, the rollback installs the stale bytes. */
  lemma {:induction false} StaleBackupIsInstalled(d: Disk, q: Request, digest: Content -> string, good: Content)
    requires WellFormed(q) && digest(good) == q.sha && !BackupIsTrusted(d, q.sha, digest)
    ensures !AllTrusted(Update(d, q, digest, Luck([good], false, true, false, true, true, true)).0, d, q.sha, digest)
  {
    var l := Luck([good], false, true, false, true, true, true);
    var got := Staged(d, l.parts);
    assert got == d.(staged := Some(good));
    DownloadsTouchOnlyStaged(d, l.parts);
    var visited := Update(d, q, digest, l).0;
    assert Swap(got, l).0[1] == RolledBack(got, l);
    assert visited[2] == RolledBack(got, l) && visited[2].binary == d.backup;
    assert !Trusted(visited[2], d, q.sha, digest);
  }

  ghost predicate AlwaysTrusted(d: Disk, q: Request, digest: Content -> string) {
    forall l :: AllTrusted(Update(d, q, digest, l).0, d, q.sha, digest)
  }

  /**
   At every point of every run the binary holds only its old bytes or bytes with the requested
   digest, exactly when there was a binary, or no `.bak`, or a `.bak` with that digest.
   */
  lemma {:induction false} BinaryIsTrustedExactly(d: Disk, q: Request, digest: Content -> string, good: Content)
    requires WellFormed(q) && digest(good) == q.sha
    ensures AlwaysTrusted(d, q, digest) <==> BackupIsTrusted(d, q.sha, digest)
  {
    hide Update, AllTrusted, BackupIsTrusted;
    if BackupIsTrusted(d, q.sha, digest) {
      forall l ensures AllTrusted(Update(d, q, digest, l).0, d, q.sha, digest) { UpdateIsTrusted(d, q, digest, l); }
    } else {
      StaleBackupIsInstalled(d, q, digest, good);
    }
  }

  // ── What the answer means ──

  /**
   Success means the verified bytes are installed and the old ones backed up; a mismatch or a
   refusal moved neither.
   */
  lemma {:induction false} AnswerIsHonest(d: Disk, q: Request, digest: Content -> string, l: Luck)
    ensures var (visited, outcome) := Update(d, q, digest, l);
            var end := Final(d, visited);
            && (outcome == Installed ==> end.binary.Some? && digest(end.binary.value) == q.sha && end.staged.None?)
            && (outcome == Installed && d.binary.Some? ==> end.backup == d.binary)
            && (outcome in {Refused, Raised, Mismatch} ==> end.binary == d.binary && end.backup == d.backup)
  {
    DownloadsTouchOnlyStaged(d, l.parts);
  }

  /**
   "Rolled back" is true, the old binary being in place again, exactly when the failure was not a
   chmod after the install and, once moved aside, the restoring rename worked.
   */
  lemma {:induction false} RolledBackExactly(d: Disk, q: Request, digest: Content -> string, l: Luck)
    requires d.binary.Some? && Update(d, q, digest, l).1 == SwapFailed
    requires Staged(d, l.parts).staged != d.binary
    ensures Final(d, Update(d, q, digest, l).0).binary == d.binary <==> !l.backupOk || (!l.installOk && l.restoreOk)
  {
    DownloadsTouchOnlyStaged(d, l.parts);
  }
}
