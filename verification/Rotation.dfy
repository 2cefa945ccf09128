/**
 * `_write_record` of the rotating and watched file backends (`backend/file.py`), on the thread that runs it, with every
 * call it makes free to raise.
 */
module Rotation {
  import opened Records

  /**
   * How one call goes: the first thing that raises, if any.  The check is `shouldRollover` or the watcher's `stat`; a
   * rollover that raises does so at the rename of backup `at`, perhaps with the file in its way already removed.
   */
  datatype Luck = AllGood | OpenRaises | CheckRaises | RolloverRaises(at: nat, removed: bool) | ReopenRaises | WriteRaises

  /** A file object; whoever holds a reference to it sees it closed. */
  class Stream {
    const file: nat
    var open: bool

    constructor (file: nat)
      ensures open && this.file == file
    {
      this.file := file;
      open := true;
    }
  }

  predicate Suffix<T(==)>(s: seq<T>, all: seq<T>) {
    |s| <= |all| && all[|all| - |s|..] == s
  }

  lemma SuffixRefl<T>(s: seq<T>)
    ensures Suffix(s, s)
  {
  }

  lemma SuffixTrans<T>(a: seq<T>, b: seq<T>, c: seq<T>)
    requires Suffix(a, b) && Suffix(b, c)
    ensures Suffix(a, c)
  {
  }

  lemma SuffixAppend<T>(a: seq<T>, b: seq<T>, x: T)
    requires Suffix(a, b)
    ensures Suffix(a + [x], b + [x])
  {
  }

  // ----- size-based rotation: the numbered backups -----

  /** The texts of a directory: 0 is the live file, `i` the numbered backup `.i`. */
  type Directory = map<nat, seq<string>>

  function Of(files: Directory, i: nat): seq<string> {
    if i in files then files[i] else []
  }

  /** The backups from `.n` down to `.1`, then the live file. */
  function ReadBack(files: Directory, n: nat): seq<string> {
    if n == 0 then Of(files, 0) else Of(files, n) + ReadBack(files, n - 1)
  }

  /** Rename backup `i` to `i + 1`, replacing what is there. */
  function Renamed(files: Directory, i: nat): Directory {
    if i in files then files[i + 1 := files[i]] - {i} else files
  }

  /** The rename of backup `i` raises; the file it was to replace may be gone already. */
  function Interrupted(files: Directory, i: nat, luck: Luck): Directory {
    if luck.RolloverRaises? && luck.removed then files - {i + 1} else files
  }

  predicate RaisesAt(files: Directory, i: nat, luck: Luck) {
    luck.RolloverRaises? && luck.at == i && i in files
  }

  /** The renames of `doRollover`, from `i` down to the live file, as far as they get. */
  function Shifted(files: Directory, i: nat, luck: Luck): Directory
    decreases i
  {
    if RaisesAt(files, i, luck) then Interrupted(files, i, luck)
    else if i == 0 then Renamed(files, 0)
    else Shifted(Renamed(files, i), i - 1, luck)
  }

  predicate ShiftRaises(files: Directory, i: nat, luck: Luck)
    decreases i
  {
    RaisesAt(files, i, luck) || (i != 0 && ShiftRaises(Renamed(files, i), i - 1, luck))
  }

  function RolledOver(files: Directory, backupCount: nat, luck: Luck): Directory {
    if backupCount == 0 then files else Shifted(files, backupCount - 1, luck)
  }

  predicate RolloverFails(files: Directory, backupCount: nat, luck: Luck) {
    backupCount != 0 && ShiftRaises(files, backupCount - 1, luck)
  }

  /** The live file made, if there is none. */
  function Opened(files: Directory): Directory {
    files[0 := Of(files, 0)]
  }

  function Appended(files: Directory, text: string): Directory {
    files[0 := Of(files, 0) + [text]]
  }

  /** The directory a text is appended to. */
  function Target(files: Directory, shouldRollover: bool, backupCount: nat, luck: Luck): Directory {
    if shouldRollover then RolledOver(Opened(files), backupCount, luck) else files
  }

  lemma {:induction false} ReadBackSame(f: Directory, g: Directory, n: nat)
    requires forall i | 0 <= i <= n :: Of(f, i) == Of(g, i)
    ensures ReadBack(f, n) == ReadBack(g, n)
  {
    if n != 0 {
      ReadBackSame(f, g, n - 1);
    }
  }

  /** A rename into a free number moves nothing in reading order; into the last number it drops the oldest texts. */
  lemma {:induction false} RenamedReads(files: Directory, i: nat, n: nat)
    requires i < n && (i + 1 in files ==> i + 1 == n)
    ensures Suffix(ReadBack(Renamed(files, i), n), ReadBack(files, n))
    ensures i + 1 !in files ==> ReadBack(Renamed(files, i), n) == ReadBack(files, n)
  {
    var g := Renamed(files, i);
    if i + 1 < n {
      RenamedReads(files, i, n - 1);
      assert Of(g, n) == Of(files, n);
    } else if i in files {
      assert Of(g, i) == [] && Of(g, n) == files[i];
      if i != 0 {
        ReadBackSame(files, g, i - 1);
        assert ReadBack(g, i) == ReadBack(files, i - 1);
      }
      assert ReadBack(g, n) == ReadBack(files, i);
    }
  }

  /** A rename that raises loses at most the oldest backup. */
  lemma InterruptedReads(files: Directory, i: nat, n: nat, luck: Luck)
    requires i < n && (i + 1 in files ==> i + 1 == n)
    ensures Suffix(ReadBack(Interrupted(files, i, luck), n), ReadBack(files, n))
  {
    var g := files - {i + 1};
    if i + 1 in files {
      ReadBackSame(files, g, n - 1);
      assert Of(g, n) == [] && [] + ReadBack(g, n - 1) == ReadBack(g, n - 1);
    } else {
      assert g == files;
    }
  }

  lemma {:induction false} ShiftedReads(files: Directory, i: nat, n: nat, luck: Luck)
    requires i < n && (i + 1 in files ==> i + 1 == n)
    ensures Suffix(ReadBack(Shifted(files, i, luck), n), ReadBack(files, n))
    decreases i
  {
    hide ReadBack, Suffix, Interrupted;
    if RaisesAt(files, i, luck) {
      InterruptedReads(files, i, n, luck);
    } else {
      RenamedReads(files, i, n);
      if i != 0 {
        var g := Renamed(files, i);
        ShiftedReads(g, i - 1, n, luck);
        SuffixTrans(ReadBack(Shifted(g, i - 1, luck), n), ReadBack(g, n), ReadBack(files, n));
      }
    }
  }

  /** Rolling over, to its end or not, keeps the newest texts in order; to its end it moves the live file away. */
  lemma RolledOverReads(files: Directory, n: nat, luck: Luck)
    ensures Suffix(ReadBack(RolledOver(files, n, luck), n), ReadBack(files, n))
    ensures n != 0 && !RolloverFails(files, n, luck) ==> 0 !in RolledOver(files, n, luck)
  {
    if n != 0 {
      ShiftedReads(files, n - 1, n, luck);
      if !RolloverFails(files, n, luck) {
        LiveFileMoved(files, n - 1, luck);
      }
    }
  }

  // ----- what a rollover loses, and where the rest goes -----

  /** The oldest backup goes when another takes its number, or when the rename that was to do so has removed it and raised. */
  function Lost(files: Directory, n: nat, luck: Luck): seq<string> {
    if n != 0 && n in files && n - 1 in files && (RaisesAt(files, n - 1, luck) ==> luck.removed) then files[n] else []
  }

  lemma OldestGone(files: Directory, n: nat)
    requires n != 0
    ensures ReadBack(files, n) == Of(files, n) + ReadBack(files - {n}, n)
    ensures n - 1 in files ==> ReadBack(files, n) == Of(files, n) + ReadBack(Renamed(files, n - 1), n)
  {
    var g, r := files - {n}, Renamed(files, n - 1);
    ReadBackSame(files, g, n - 1);
    assert Of(g, n) == [] && [] + ReadBack(g, n - 1) == ReadBack(g, n - 1);
    if n - 1 in files {
      assert Of(r, n) == files[n - 1] && Of(r, n - 1) == [];
      if n != 1 {
        ReadBackSame(files, r, n - 2);
        assert [] + ReadBack(r, n - 2) == ReadBack(r, n - 2);
      }
      assert ReadBack(r, n) == ReadBack(files, n - 1);
    }
  }

  /** A shift into a free number loses nothing, wherever it raises. */
  lemma {:induction false} ShiftedKeeps(files: Directory, i: nat, n: nat, luck: Luck)
    requires i < n && i + 1 !in files
    ensures ReadBack(Shifted(files, i, luck), n) == ReadBack(files, n)
    decreases i
  {
    hide ReadBack;
    if RaisesAt(files, i, luck) {
      assert Interrupted(files, i, luck) == files;
    } else {
      RenamedReads(files, i, n);
      if i != 0 {
        ShiftedKeeps(Renamed(files, i), i - 1, n, luck);
      }
    }
  }

  /**
   * A rollover, to its end or not, loses nothing but the oldest backup, and that exactly when its number is taken and the
   * one below it exists to replace it.
   */
  lemma RolloverLoses(files: Directory, n: nat, luck: Luck)
    ensures ReadBack(files, n) == Lost(files, n, luck) + ReadBack(RolledOver(files, n, luck), n)
  {
    hide ReadBack;
    assert [] + ReadBack(files, n) == ReadBack(files, n);
    if n != 0 {
      OldestGone(files, n);
      var g := Renamed(files, n - 1);
      if RaisesAt(files, n - 1, luck) {
        assert n !in files ==> files - {n} == files;
      } else if n != 1 {
        ShiftedKeeps(g, n - 2, n, luck);
      }
      assert [] + ReadBack(g, n) == ReadBack(g, n);
      assert [] + ReadBack(files - {n}, n) == ReadBack(files - {n}, n);
      assert [] + ReadBack(RolledOver(files, n, luck), n) == ReadBack(RolledOver(files, n, luck), n);
    }
  }

  lemma {:induction false} ShiftedAt(files: Directory, i: nat, luck: Luck, k: nat)
    requires !ShiftRaises(files, i, luck)
    ensures var g := Shifted(files, i, luck);
      if k > i + 1 then k in g <==> k in files
      else if k > 0 && k - 1 in files then k in g
      else k in g <==> k == i + 1 && k in files
    ensures var g := Shifted(files, i, luck);
      k in g ==> g[k] == if 0 < k <= i + 1 && k - 1 in files then files[k - 1] else if k in files then files[k] else []
    decreases i
  {
    if i != 0 {
      ShiftedAt(Renamed(files, i), i - 1, luck, k);
    }
  }

  /** A rollover that goes through moves every backup and the live file one number up, the highest one out. */
  lemma RolledOverAt(files: Directory, n: nat, luck: Luck, k: nat)
    requires n != 0 && !RolloverFails(files, n, luck)
    ensures var g := RolledOver(files, n, luck);
      && (1 <= k <= n && k - 1 in files ==> k in g && g[k] == files[k - 1])
      && (k < n && (k == 0 || k - 1 !in files) ==> k !in g)
      && (k == n && n - 1 !in files ==> (n in g <==> n in files) && (n in g ==> g[n] == files[n]))
      && (k > n ==> (k in g <==> k in files) && (k in g ==> g[k] == files[k]))
  {
    ShiftedAt(files, n - 1, luck, k);
  }

  lemma {:induction false} LiveFileMoved(files: Directory, i: nat, luck: Luck)
    requires !ShiftRaises(files, i, luck)
    ensures 0 !in Shifted(files, i, luck)
    decreases i
  {
    if i != 0 {
      LiveFileMoved(Renamed(files, i), i - 1, luck);
    }
  }

  lemma LiveReads(files: Directory, n: nat, live: seq<string>)
    ensures ReadBack(files[0 := Of(files, 0) + live], n) == ReadBack(files, n) + live
  {
    var g := files[0 := Of(files, 0) + live];
    if n != 0 {
      LiveReads(files, n - 1, live);
      assert Of(g, n) == Of(files, n);
    }
  }

  /** The calls this one makes succeed, given a usable or absent stream. */
  predicate CallsSucceed(luck: Luck, isOpen: bool, shouldRollover: bool, rolloverFails: bool) {
    match luck
    case AllGood => true
    case OpenRaises => isOpen
    case CheckRaises => false
    case RolloverRaises(_, _) => !(shouldRollover && rolloverFails)
    case ReopenRaises => !shouldRollover
    case WriteRaises => false
  }

  /** Size-based rotation, in append mode. */
  class RotatingFileBackend {
    const backupCount: nat
    var files: Directory
    var stream: Stream?
    /** Every text the directory held at first or that was written since. */
    ghost var texts: seq<string>
    /** A rollover has raised since the stream was last closed by the worker. */
    ghost var faulted: bool

    /**
     * What survives on disk is the newest part of all texts, and the backend holds a closed stream exactly when a
     * rollover has raised.
     */
    ghost predicate Valid()
      reads this, stream
    {
      && (stream != null && stream.open ==> 0 in files)
      && (faulted <==> stream != null && !stream.open)
      && Suffix(ReadBack(files, backupCount), texts)
    }

    constructor (backupCount: nat, files: Directory)
      ensures Valid() && stream == null && this.files == files && this.backupCount == backupCount
      ensures texts == ReadBack(files, backupCount) && !faulted
    {
      this.backupCount, this.files := backupCount, files;
      stream, texts, faulted := null, ReadBack(files, backupCount), false;
    }

    /** `_open_stream`, in append mode; an open or a closed stream is returned as it is. */
    method OpenStream(ok: bool)
      requires Valid()
      modifies this`stream, this`files
      ensures Valid() && (stream != null <==> ok || old(stream) != null)
      ensures if old(stream) != null then stream == old(stream) else stream == null || (fresh(stream) && stream.open)
      ensures ReadBack(files, backupCount) == old(ReadBack(files, backupCount))
      ensures files == (if old(stream) == null && ok then Opened(old(files)) else old(files))
    {
      if stream == null && ok {
        LiveReads(files, backupCount, []);
        assert Of(files, 0) + [] == Of(files, 0);
        files := Opened(files);
        assert ReadBack(files, backupCount) + [] == ReadBack(files, backupCount);
        stream := new Stream(0);
      }
    }

    /** `doRollover` of a rotator built with `delay=True`: close, rename, leave unopened; false when a rename raises. */
    method DoRollover(rotatorStream: Stream, luck: Luck) returns (done: bool)
      modifies rotatorStream, this`files
      ensures !rotatorStream.open && files == RolledOver(old(files), backupCount, luck)
      ensures done == !RolloverFails(old(files), backupCount, luck)
      ensures done && backupCount != 0 ==> forall k | 1 <= k <= backupCount && k - 1 in old(files) ::
        k in files && files[k] == old(files)[k - 1]
    {
      rotatorStream.open := false;
      ghost var start := files;
      done := true;
      if backupCount > 0 {
        var i: nat := backupCount - 1;
        while i > 0 && !RaisesAt(files, i, luck)
          invariant !rotatorStream.open && Shifted(files, i, luck) == Shifted(start, backupCount - 1, luck)
          invariant ShiftRaises(files, i, luck) == ShiftRaises(start, backupCount - 1, luck)
        {
          files := Renamed(files, i);
          i := i - 1;
        }
        done := !RaisesAt(files, i, luck);
        files := if done then Renamed(files, i) else Interrupted(files, i, luck);
        assert files == Shifted(start, backupCount - 1, luck);
        if done {
          forall k: nat | 1 <= k <= backupCount && k - 1 in start ensures k in files && files[k] == start[k - 1] {
            RolledOverAt(start, backupCount, luck, k);
          }
        }
      }
    }

    /** The rollover of an open stream.  When it raises, the backend is left with the stream the rotator has closed. */
    method RollOver(luck: Luck) returns (done: bool)
      requires Valid() && stream != null && stream.open
      modifies this`files, this`stream, this`faulted, stream
      ensures Valid() && files == RolledOver(old(files), backupCount, luck)
      ensures done == !RolloverFails(old(files), backupCount, luck) && faulted == !done
      ensures if done then stream == null else stream == old(stream)
      ensures Lost(old(files), backupCount, luck) + ReadBack(files, backupCount) == old(ReadBack(files, backupCount))
    {
      hide ReadBack, RolledOver, Suffix, RolloverFails, Lost;
      RolledOverReads(files, backupCount, luck);
      RolloverLoses(files, backupCount, luck);
      SuffixTrans(ReadBack(RolledOver(files, backupCount, luck), backupCount), ReadBack(files, backupCount), texts);
      done := DoRollover(stream, luck);
      if done {
        stream := null;
      } else {
        faulted := true;
      }
    }

    /** Of what was there, `lost` is gone at most, if nothing was written perhaps not even that; a text written is added. */
    ghost predicate LosesOnly(from: Directory, lost: seq<string>, text: string, written: bool)
      reads this
    {
      var before, now := ReadBack(from, backupCount), ReadBack(files, backupCount);
      if written then lost + now == before + [text] else now == before || lost + now == before
    }

    /** `write` and `flush` at the end of the live file. */
    method AppendText(text: string)
      requires Valid() && stream != null && stream.open
      modifies this`files, this`texts
      ensures Valid() && texts == old(texts) + [text] && files == Appended(old(files), text)
      ensures ReadBack(files, backupCount) == old(ReadBack(files, backupCount)) + [text]
    {
      hide ReadBack, Suffix;
      SuffixAppend(ReadBack(files, backupCount), texts, text);
      LiveReads(files, backupCount, [text]);
      files, texts := Appended(files, text), texts + [text];
    }

    /**
     * `_write_record`.  Whatever the rotator decides and whatever raises, the surviving backups followed by the live
     * file are the newest texts in the order written, and a text that was written is the last of the live file.  It is
     * written if and only if no rollover has raised since the stream was last closed by the worker and the calls made
     * now succeed.  A call loses no text, unless it rolls over into the last number while that is taken.
     */
    method WriteRecord(text: string, shouldRollover: bool, luck: Luck) returns (written: bool)
      requires Valid()
      modifies this, stream
      ensures Valid() && (stream == old(stream) || stream == null || fresh(stream))
      ensures texts == if written then old(texts) + [text] else old(texts)
      ensures written ==> 0 in files && files[0] != [] && files[0][|files[0]| - 1] == text
      ensures written ==> files == Appended(Target(old(files), shouldRollover, backupCount, luck), text)
      ensures LosesOnly(old(files), if shouldRollover then Lost(Opened(old(files)), backupCount, luck) else [], text, written)
      ensures written && shouldRollover && backupCount != 0 ==> files[0] == [text]
      ensures luck.AllGood? && !old(faulted) ==> written
      ensures var fails := RolloverFails(Opened(old(files)), backupCount, luck);
        && (written <==> !old(faulted) && CallsSucceed(luck, old(stream) != null, shouldRollover, fails))
        && (faulted <==> old(faulted) || (luck.RolloverRaises? && shouldRollover && fails))
      ensures old(faulted) ==> files == old(files) && stream == old(stream)
    {
      hide ReadBack, RolledOver, Suffix, RolloverFails, Lost;
      written := false;
      OpenStream(!luck.OpenRaises?);
      if stream == null || !stream.open || luck.CheckRaises? {
        // A closed stream makes `tell` or, when the size is unlimited, the write raise ValueError.
        NoFaultNoFailure(Opened(old(files)), luck);
        return;
      }
      assert files == Opened(old(files));
      NoFaultNoFailure(files, luck);
      if shouldRollover {
        RolledOverReads(files, backupCount, luck);
        var done := RollOver(luck);
        if done {
          OpenStream(!luck.ReopenRaises?);
        }
        if !done || stream == null {
          return;
        }
      }
      if !luck.WriteRaises? {
        ghost var now, lost := ReadBack(files, backupCount), if shouldRollover then Lost(Opened(old(files)), backupCount, luck) else [];
        assert [] + now == now && lost + now == old(ReadBack(files, backupCount));
        AppendText(text);
        assert lost + (now + [text]) == (lost + now) + [text];
        written := true;
      }
    }

    lemma NoFaultNoFailure(from: Directory, luck: Luck)
      ensures RolloverFails(from, backupCount, luck) ==> luck.RolloverRaises?
    {
      if backupCount != 0 {
        ShiftRaisesOnlyWithFault(from, backupCount - 1, luck);
      }
    }

    /** `_close_stream`, at the end of a start cycle. */
    method CloseStream()
      requires Valid()
      modifies this`stream, this`faulted, stream
      ensures Valid() && stream == null && files == old(files) && !faulted
    {
      if stream != null {
        stream.open := false;
        stream := null;
      }
      faulted := false;
    }
  }

  lemma {:induction false} ShiftRaisesOnlyWithFault(files: Directory, i: nat, luck: Luck)
    ensures ShiftRaises(files, i, luck) ==> luck.RolloverRaises?
    decreases i
  {
    if i != 0 {
      ShiftRaisesOnlyWithFault(Renamed(files, i), i - 1, luck);
    }
  }

  lemma LiveRenameRaises(files: Directory)
    ensures RolloverFails(Opened(files), 1, RolloverRaises(0, false))
  {
    assert ShiftRaises(Opened(files), 0, RolloverRaises(0, false));
  }

  /** One rename that raises, and no later record of the start cycle is written, however well everything goes. */
  method FailedRolloverLosesTheCycle(first: string, second: string, later: string) returns (b: RotatingFileBackend)
    ensures fresh(b) && b.Valid() && b.texts == [first, later] && !b.faulted
  {
    hide RolledOver, RolloverFails, Suffix, ReadBack, Lost, Target;
    b := RolloverHasFailed(first, second);
    var three := b.WriteRecord(later, false, AllGood);
    assert !three && b.faulted;
    b.CloseStream();
    var four := b.WriteRecord(later, false, AllGood);
    assert four && b.texts == [first] + [later];
  }

  method RolloverHasFailed(first: string, second: string) returns (b: RotatingFileBackend)
    ensures fresh(b) && (b.stream != null ==> fresh(b.stream)) && b.Valid() && b.texts == [first] && b.faulted
  {
    hide RolledOver, RolloverFails, Suffix, Shifted, Renamed, Lost, Target;
    b := new RotatingFileBackend(1, map[]);
    assert b.texts == [];
    var one := b.WriteRecord(first, false, AllGood);
    LiveRenameRaises(b.files);
    var two := b.WriteRecord(second, true, RolloverRaises(0, false));
    assert one && !two && b.texts == [] + [first];
  }

  // ----- time-based rotation -----

  function Flat(archives: seq<seq<string>>): seq<string> {
    if archives == [] then [] else archives[0] + Flat(archives[1..])
  }

  lemma {:induction false} FlatSnoc(archives: seq<seq<string>>, last: seq<string>)
    ensures Flat(archives + [last]) == Flat(archives) + last
  {
    if archives != [] {
      assert (archives + [last])[1..] == archives[1..] + [last];
      FlatSnoc(archives[1..], last);
    }
  }

  /** The last `n`, or all of them when there are fewer or `n` is 0. */
  function Newest<T>(s: seq<T>, n: nat): seq<T> {
    if n == 0 || |s| <= n then s else s[|s| - n..]
  }

  lemma DropOldest(archives: seq<seq<string>>, all: seq<string>)
    requires archives != [] && Suffix(Flat(archives), all)
    ensures Suffix(Flat(archives[1..]), all)
  {
    SuffixTrans(Flat(archives[1..]), Flat(archives), all);
  }

  lemma NewestDrop<T>(s: seq<T>, n: nat)
    requires 0 < n < |s|
    ensures Newest(s[1..], n) == Newest(s, n)
  {
  }

  lemma NewestAll<T>(s: seq<T>, n: nat)
    requires n == 0 || |s| <= n
    ensures Newest(s, n) == s
  {
  }

  lemma NewestOneMore<T>(s: seq<T>, x: T, n: nat)
    requires n == 0 || |s| <= n
    ensures Newest(s + [x], n) == (if n == 0 || |s| < n then s else s[1..]) + [x]
  {
  }

  /** Time-based rotation: an archive per rollover, named by its time, the oldest beyond the count deleted. */
  class TimedRotatingFileBackend {
    const backupCount: nat
    var archives: seq<seq<string>>
    var live: seq<string>
    var stream: Stream?
    ghost var texts: seq<string>
    /** The last rollover has raised, and the worker has not closed the stream since. */
    ghost var faulted: bool

    ghost predicate Valid()
      reads this, stream
    {
      && (faulted <==> stream != null && !stream.open)
      && Suffix(Flat(archives) + live, texts)
      && (backupCount > 0 ==> |archives| <= backupCount)
    }

    constructor (backupCount: nat)
      ensures Valid() && stream == null && texts == [] && this.backupCount == backupCount && !faulted
    {
      this.backupCount, archives, live, stream, texts, faulted := backupCount, [], [], null, [], false;
    }

    method OpenStream(ok: bool)
      requires Valid()
      modifies this`stream
      ensures Valid() && (stream != null <==> ok || old(stream) != null)
      ensures if old(stream) != null then stream == old(stream) else stream == null || (fresh(stream) && stream.open)
    {
      if stream == null && ok {
        stream := new Stream(0);
      }
    }

    /** `doRollover`: close, archive, delete what is too old, leave unopened; false when the rename raises. */
    method DoRollover(rotatorStream: Stream, ok: bool) returns (done: bool)
      modifies rotatorStream, this`archives, this`live
      ensures !rotatorStream.open && done == ok
      ensures ok ==> live == [] && archives == Newest(old(archives) + [old(live)], backupCount)
      ensures !ok ==> live == old(live) && archives == old(archives)
      ensures Suffix(Flat(archives) + live, Flat(old(archives)) + old(live))
    {
      hide Flat, Suffix, Newest;
      rotatorStream.open := false;
      ghost var all, archived := Flat(archives) + live, archives + [live];
      SuffixRefl(all);
      done := ok;
      if !done {
        return;
      }
      FlatSnoc(archives, live);
      archives, live := archives + [live], [];
      while backupCount > 0 && |archives| > backupCount
        invariant !rotatorStream.open && live == [] && Suffix(Flat(archives), all)
        invariant Newest(archives, backupCount) == Newest(archived, backupCount)
        decreases |archives|
      {
        DropOldest(archives, all);
        NewestDrop(archives, backupCount);
        archives := archives[1..];
      }
      NewestAll(archives, backupCount);
      assert Flat(archives) + [] == Flat(archives);
    }

    /** The rollover of whatever stream the backend holds, open or closed. */
    method RollOver(ok: bool) returns (done: bool)
      requires Valid() && stream != null
      modifies this`archives, this`live, this`stream, this`faulted, stream
      ensures Valid() && done == ok && faulted == !ok
      ensures if done then stream == null else stream == old(stream)
      ensures ok ==> live == [] && archives == Newest(old(archives) + [old(live)], backupCount)
      ensures !ok ==> live == old(live) && archives == old(archives)
    {
      hide Flat, Suffix;
      ghost var all := Flat(archives) + live;
      done := DoRollover(stream, ok);
      SuffixTrans(Flat(archives) + live, all, texts);
      if done {
        stream := null;
      }
      faulted := !done;
    }

    /**
     * `_write_record`.  The surviving archives, oldest first, and the live file are the newest texts in order.  A
     * rollover that raises leaves a closed stream; as the rotator stays due, the next call rolls over again and heals
     * it.  So a text is written if and only if the calls made now succeed and, after a rollover that raised, another is
     * made.
     */
    method WriteRecord(text: string, shouldRollover: bool, luck: Luck) returns (written: bool)
      requires Valid()
      modifies this, stream
      ensures Valid() && (stream == old(stream) || stream == null || fresh(stream))
      ensures texts == if written then old(texts) + [text] else old(texts)
      ensures var rolled := shouldRollover && !luck.CheckRaises? && !luck.RolloverRaises? && (old(stream) != null || !luck.OpenRaises?);
        && live == (if rolled then [] else old(live)) + (if written then [text] else [])
        && archives == if !rolled then old(archives)
                       else (if backupCount == 0 || |old(archives)| < backupCount then old(archives) else old(archives)[1..]) + [old(live)]
      ensures luck.AllGood? && (old(faulted) ==> shouldRollover) ==> written
      ensures var reached := !luck.CheckRaises? && (old(stream) != null || !luck.OpenRaises?);
        && (written <==> (old(faulted) ==> shouldRollover) && CallsSucceed(luck, old(stream) != null, shouldRollover, true))
        && (faulted <==> if shouldRollover && reached then luck.RolloverRaises? else old(faulted))
    {
      hide Flat, Suffix, Newest;
      written := false;
      OpenStream(!luck.OpenRaises?);
      if stream == null || luck.CheckRaises? {
        return;
      }
      if shouldRollover {
        NewestOneMore(archives, live, backupCount);
        var done := RollOver(!luck.RolloverRaises?);
        if done {
          OpenStream(!luck.ReopenRaises?);
        }
        if !done || stream == null {
          return;
        }
      }
      if stream.open && !luck.WriteRaises? {
        SuffixAppend(Flat(archives) + live, texts, text);
        assert Flat(archives) + (live + [text]) == Flat(archives) + live + [text];
        live := live + [text];
        written, texts := true, texts + [text];
      }
    }

    method CloseStream()
      requires Valid()
      modifies this`stream, this`faulted, stream
      ensures Valid() && stream == null && !faulted && archives == old(archives) && live == old(live)
    {
      if stream != null {
        stream.open := false;
        stream := null;
      }
      faulted := false;
    }
  }

  // ----- files replaced from outside -----

  /** What the path names: the texts of that file, or nothing. */
  function OnPath(contents: seq<seq<string>>, path: Option<nat>): seq<string> {
    if path.Some? && path.value < |contents| then contents[path.value] else []
  }

  /** Only the file on the path may differ, and no file has gone. */
  ghost predicate OthersKept(before: seq<seq<string>>, after: seq<seq<string>>, path: Option<nat>) {
    |before| <= |after| && forall f | 0 <= f < |before| :: Some(f) != path ==> after[f] == before[f]
  }

  /** The path keeps its file, or gets the next new one. */
  predicate PathKept(path: Option<nat>, files: nat, pathAfter: Option<nat>, filesAfter: nat) {
    if path.None? && pathAfter.Some? then pathAfter.value == files && filesAfter == files + 1
    else pathAfter == path && filesAfter == files
  }

  /** The name stands for no file, or not for the one seen last. */
  predicate NeedsReopen(path: Option<nat>, seen: Option<nat>) {
    path == None || path != seen
  }

  /**
   * A file that logrotate may move away or replace between two writes.  Files are numbered by age; `path` is the one
   * the configured name stands for, `seen` the one the stdlib watcher noted when it last opened or checked the name.
   */
  class WatchedFileBackend {
    var contents: seq<seq<string>>
    var path: Option<nat>
    var stream: Stream?
    var seen: Option<nat>
    /** A reopen has raised since the stream was last closed by the worker. */
    ghost var faulted: bool
    /** The stream was opened in a call whose `stat` raised, so the watcher has not seen its file. */
    ghost var unchecked: bool

    ghost predicate Sane()
      reads this, stream
    {
      && (stream != null ==> stream.file < |contents|)
      && (path.Some? ==> path.value < |contents|)
      && (seen.Some? ==> seen.value < |contents|)
      && (faulted <==> stream != null && !stream.open)
    }

    /** Between two calls an open stream is on the file the watcher has seen, if the watcher has seen one for it. */
    ghost predicate Valid()
      reads this, stream
    {
      Sane() && (stream != null && stream.open && !unchecked ==> seen == Some(stream.file))
    }

    /** The watcher has no reason to reopen, but the open stream is not on the file the path names. */
    ghost predicate Astray()
      reads this, stream
    {
      stream != null && stream.open && !NeedsReopen(path, seen) && path != Some(stream.file)
    }

    constructor ()
      ensures Valid() && stream == null && contents == [] && path == None && !faulted && !unchecked
    {
      contents, path, stream, seen, faulted, unchecked := [], None, null, None, false, false;
    }

    /** Somebody renames, deletes or replaces the file. */
    method Replace(to: Option<nat>)
      requires Valid() && (to.Some? ==> to.value < |contents|)
      modifies this`path
      ensures Valid() && path == to
    {
      path := to;
    }

    /** `open` in append mode: the file on the path, made if there is none. */
    method OpenPath() returns (s: Stream)
      requires path.Some? ==> path.value < |contents|
      modifies this`contents, this`path
      ensures fresh(s) && s.open && path == Some(s.file) && s.file < |contents|
      ensures OnPath(contents, path) == OnPath(old(contents), old(path))
      ensures OthersKept(old(contents), contents, path) && PathKept(old(path), |old(contents)|, path, |contents|)
    {
      if path == None {
        contents, path := contents + [[]], Some(|contents|);
      }
      s := new Stream(path.value);
    }

    /** `_open_stream`: an open or a closed stream is kept as it is. */
    method OpenStream(luck: Luck)
      requires Valid()
      modifies this`contents, this`path, this`stream, this`unchecked
      ensures Sane() && (stream == null <==> old(stream) == null && luck.OpenRaises?)
      ensures old(stream) != null ==>
        stream == old(stream) && contents == old(contents) && path == old(path) && unchecked == old(unchecked)
      ensures old(stream) == null ==>
        && (stream != null ==> fresh(stream) && stream.open && path == Some(stream.file))
        && unchecked == (luck.CheckRaises? && stream != null)
      ensures stream == null ==> contents == old(contents) && path == old(path)
      ensures NeedsReopen(path, seen) == NeedsReopen(old(path), seen)
      ensures OnPath(contents, path) == OnPath(old(contents), old(path))
      ensures OthersKept(old(contents), contents, path) && PathKept(old(path), |old(contents)|, path, |contents|)
    {
      if stream == null {
        unchecked := false;
        if !luck.OpenRaises? {
          stream := OpenPath();
          unchecked := luck.CheckRaises?;
        }
      }
    }

    /**
     * `reopenIfNeeded`, and the backend's adoption of the stream it leaves.  When the open raises after the close, the
     * adoption is skipped and the backend keeps the closed stream; flushing that one raises from then on.
     */
    method ReopenIfNeeded(luck: Luck) returns (done: bool)
      requires Sane() && stream != null
      modifies this`contents, this`path, this`stream, this`seen, this`faulted, stream
      ensures Sane() && stream != null && (stream == old(stream) || fresh(stream))
      ensures old(stream.open) ==> done == (!luck.CheckRaises? && !(luck.ReopenRaises? && NeedsReopen(old(path), old(seen))))
      ensures !old(stream.open) || !done || !NeedsReopen(old(path), old(seen)) ==>
        stream == old(stream) && contents == old(contents) && path == old(path) && seen == old(seen)
      ensures old(stream.open) && done ==> stream.open
      ensures done && stream.open && NeedsReopen(old(path), old(seen)) ==> path == seen == Some(stream.file)
      ensures faulted == (old(faulted) || (luck.ReopenRaises? && NeedsReopen(old(path), old(seen))))
      ensures OnPath(contents, path) == OnPath(old(contents), old(path))
      ensures OthersKept(old(contents), contents, path) && PathKept(old(path), |old(contents)|, path, |contents|)
    {
      done := !luck.CheckRaises?;
      if done && NeedsReopen(path, seen) {
        if !stream.open {
          done := false;
        } else {
          stream.open := false;
          if luck.ReopenRaises? {
            done, faulted := false, true;
          } else {
            stream := OpenPath();
            seen := path;
          }
        }
      }
    }

    /**
     * `_write_record`.  The text is written if and only if no reopen has raised since the stream was last closed by the
     * worker and the calls made now succeed.  It is appended to the file the path names -- the one found there, or a
     * new one -- whatever was done to the path since the last write, and every other file keeps its texts; the one
     * exception is a stream gone astray, which `Valid` allows only to a stream the watcher has not seen.
     */
    method WriteRecord(text: string, luck: Luck) returns (written: bool)
      requires Valid()
      modifies this, stream
      ensures Valid() && (stream == old(stream) || fresh(stream))
      ensures var reopen := NeedsReopen(old(path), old(seen));
        && (written <==> !old(faulted) && CallsSucceed(luck, old(stream) != null, reopen, false))
        && (faulted <==> old(faulted) || (luck.ReopenRaises? && reopen))
      ensures !(written && old(Astray())) ==>
        && OnPath(contents, path) == OnPath(old(contents), old(path)) + (if written then [text] else [])
        && OthersKept(old(contents), contents, path) && PathKept(old(path), |old(contents)|, path, |contents|)
      ensures written && old(Astray()) ==>
        && path == old(path) && old(stream) != null && old(stream).file < |old(contents)|
        && contents == old(contents)[old(stream).file := old(contents)[old(stream).file] + [text]]
      ensures old(faulted) ==> contents == old(contents) && path == old(path) && stream == old(stream) && seen == old(seen)
      ensures luck.AllGood? && !old(faulted) ==> written
      ensures old(stream) != null && old(path) == old(seen) == Some(old(stream).file) ==> stream == old(stream)
      ensures unchecked ==> old(unchecked) || (luck.CheckRaises? && old(stream) == null)
      ensures written && !old(Astray()) ==> stream != null && seen == path == Some(stream.file)
      ensures old(stream) == null && stream != null && stream.open ==> path == Some(stream.file)
      ensures old(stream) == null && !luck.OpenRaises? ==> stream != null
      ensures luck.CheckRaises? ==> seen == old(seen) && (stream != null && stream.open <==> !old(faulted))
    {
      written := false;
      OpenStream(luck);
      if stream == null {
        return;
      }
      ghost var reopen := NeedsReopen(path, seen);
      var done := ReopenIfNeeded(luck);
      if done && reopen {
        unchecked := false;
      }
      if done && stream.open && !luck.WriteRaises? {
        contents := contents[stream.file := contents[stream.file] + [text]];
        written := true;
      }
    }

    method CloseStream()
      requires Valid()
      modifies this`stream, this`faulted, this`unchecked, stream
      ensures Valid() && stream == null && !faulted && !unchecked && contents == old(contents) && path == old(path)
      ensures seen == old(seen)
    {
      if stream != null {
        stream.open := false;
        stream := null;
      }
      faulted, unchecked := false, false;
    }
  }

  /** One reopen that raises, and no later record of the start cycle is written, however well everything goes. */
  method FailedReopenLosesTheCycle(first: string, second: string, later: string) returns (b: WatchedFileBackend)
    ensures fresh(b) && b.Valid() && !b.faulted && OnPath(b.contents, b.path) == [later]
  {
    b := new WatchedFileBackend();
    var one := b.WriteRecord(first, AllGood);
    b.Replace(None);
    var two := b.WriteRecord(second, ReopenRaises);
    assert one && !two && b.faulted;
    var three := b.WriteRecord(later, AllGood);
    assert !three && b.faulted;
    b.CloseStream();
    var four := b.WriteRecord(later, AllGood);
    assert four;
  }

  /** A `stat` that raises on a fresh stream lets the next text go to a file the path no longer names. */
  method UncheckedStreamGoesAstray(text: string) returns (b: WatchedFileBackend)
    ensures fresh(b) && b.Valid() && b.path == Some(0) && b.contents == [[text], [text]]
  {
    b := new WatchedFileBackend();
    var one := b.WriteRecord(text, AllGood);
    assert b.contents[0] == [] + [text] == [text];
    assert b.contents == [[text]] && b.path == Some(0) && b.seen == Some(0);
    b.CloseStream();
    b.Replace(None);
    var two := b.WriteRecord(text, CheckRaises);
    assert one && !two && b.seen == Some(0) && b.contents == [[text], []] && b.path == Some(1);
    b.Replace(Some(0));
    var three := b.WriteRecord(text, AllGood);
    assert three;
  }
}
