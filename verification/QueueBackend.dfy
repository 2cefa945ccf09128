/** Drain results and the shutdown-status record built from them (`backend/_base.py`). */
module QueueBackend {
  import opened Records

  datatype DrainStatus = COMPLETED | TIMEOUT | ERROR

  /** `error` is the text of the exception carried by an ERROR result, empty otherwise. */
  datatype BackendDrainResult =
    BackendDrainResult(name: string, status: DrainStatus, error: string, displayName: Option<string>)

  function Lower(c: char): char {
    if 'A' <= c <= 'Z' then (c as int + 32) as char else c
  }

  function Upper(c: char): char {
    if 'a' <= c <= 'z' then (c as int - 32) as char else c
  }

  function LowerAll(s: string): string {
    if s == "" then "" else [Lower(s[0])] + LowerAll(s[1..])
  }

  /** `str.capitalize`, on ASCII. */
  function Capitalize(s: string): string {
    if s == "" then "" else [Upper(s[0])] + LowerAll(s[1..])
  }

  /** `str.lstrip("_")`. */
  function StripUnderscores(s: string): string {
    if s != "" && s[0] == '_' then StripUnderscores(s[1..]) else s
  }

  /** An absent or empty display name falls back to the queue key. */
  function Label(result: BackendDrainResult): string {
    var display :=
      if result.displayName.Some? && result.displayName.value != ""
      then result.displayName.value
      else StripUnderscores(result.name);
    Capitalize(display)
  }

  function StatusRecord(result: BackendDrainResult): LogRecord {
    var title := Label(result);
    match result.status
    case COMPLETED =>
      LogRecord(title + "Logger", INFO, title + " Logger has completed processing its queue.")
    case TIMEOUT =>
      LogRecord(title + "Logger", Records.ERROR,
                "Timeout while waiting for " + title + " logger to complete its queue.")
    case ERROR =>
      LogRecord(title + "Logger", Records.ERROR,
                "Error while waiting for " + title + " Logger: " + result.error)
  }

  // ----- what a status record tells -----

  predicate Begins(s: string, start: string) {
    |start| <= |s| && s[..|start|] == start
  }

  predicate Ends(s: string, end: string) {
    |end| <= |s| && s[|s| - |end|..] == end
  }

  lemma Joined(s: string, t: string)
    ensures Begins(s + t, s) && Ends(s + t, t)
  {
  }

  /** Only a completed drain is reported at INFO, by the name of its backend. */
  lemma StatusLevel(result: BackendDrainResult)
    ensures var s := StatusRecord(result);
      s.levelno == (if result.status.COMPLETED? then INFO else Records.ERROR) && s.name == Label(result) + "Logger"
  {
    hide Label;
  }

  /** The text of a completed drain begins with whose it was and says that it has completed. */
  lemma CompletedTells(result: BackendDrainResult)
    requires result.status.COMPLETED?
    ensures StatusRecord(result).message == Label(result) + " Logger has completed processing its queue."
    ensures Begins(StatusRecord(result).message, Label(result))
  {
    hide Label, Begins;
    Joined(Label(result), " Logger has completed processing its queue.");
  }

  lemma TimeoutTells(result: BackendDrainResult)
    requires result.status.TIMEOUT?
    ensures Begins(StatusRecord(result).message, "Timeout while waiting for " + Label(result))
  {
    hide Label, Begins;
    Joined("Timeout while waiting for " + Label(result), " logger to complete its queue.");
  }

  /** An error carries its own text at the end. */
  lemma ErrorTells(result: BackendDrainResult)
    requires result.status.ERROR?
    ensures Begins(StatusRecord(result).message, "Error while waiting for " + Label(result))
    ensures Ends(StatusRecord(result).message, result.error)
  {
    hide Label, Begins, Ends;
    var start := "Error while waiting for " + Label(result);
    Joined(start, " Logger: " + result.error);
    Spliced(start, " Logger: ", result.error);
    Joined(start + " Logger: ", result.error);
  }

  lemma Spliced(a: string, b: string, c: string)
    ensures a + b + c == a + (b + c)
  {
  }

  /** Two results that are reported alike came to the same, for the same label, and carry the same error. */
  lemma StatusDistinguishes(q: BackendDrainResult, r: BackendDrainResult)
    requires StatusRecord(q) == StatusRecord(r)
    ensures q.status == r.status && Label(q) == Label(r) && (q.status.ERROR? ==> q.error == r.error)
  {
    assert (Label(q) + "Logger")[..|Label(q)|] == (Label(r) + "Logger")[..|Label(r)|];
    hide Label;
    if !q.status.COMPLETED? && !r.status.COMPLETED? {
      FirstLetter(q);
      FirstLetter(r);
    }
    if q.status.ERROR? && r.status.ERROR? {
      var start := "Error while waiting for " + Label(q) + " Logger: ";
      assert (start + q.error)[|start|..] == (start + r.error)[|start|..];
    }
  }

  lemma FirstLetter(result: BackendDrainResult)
    requires !result.status.COMPLETED?
    ensures StatusRecord(result).message != "" && (StatusRecord(result).message[0] == 'T' <==> result.status.TIMEOUT?)
  {
    hide Label;
  }

  // ----- labels -----

  /** `str.capitalize` raises the first letter and lowers the others, and has nothing left to do on its own result. */
  lemma CapitalizedAt(s: string, k: nat)
    requires k < |s|
    ensures |Capitalize(s)| == |s| && Capitalize(s)[k] == if k == 0 then Upper(s[0]) else Lower(s[k])
    ensures Capitalize(Capitalize(s)) == Capitalize(s)
  {
    LoweredAt(s[1..], k - 1);
    LowerTwice(s[1..]);
    assert Capitalize(s)[1..] == LowerAll(s[1..]);
  }

  lemma {:induction false} LoweredAt(s: string, k: int)
    ensures |LowerAll(s)| == |s| && (0 <= k < |s| ==> LowerAll(s)[k] == Lower(s[k]))
  {
    if s != "" {
      LoweredAt(s[1..], k - 1);
    }
  }

  lemma {:induction false} LowerTwice(s: string)
    ensures LowerAll(LowerAll(s)) == LowerAll(s)
  {
    if s != "" {
      LowerTwice(s[1..]);
      assert LowerAll(s)[1..] == LowerAll(s[1..]);
    }
  }

  /** The letters keep their place in the alphabet. */
  lemma CaseBack(c: char)
    ensures 'a' <= c <= 'z' ==> 'A' <= Upper(c) <= 'Z' && Upper(c) - 'A' == c - 'a' && Lower(Upper(c)) == c
    ensures 'A' <= c <= 'Z' ==> 'a' <= Lower(c) <= 'z' && Upper(Lower(c)) == c && Upper(c) == c
    ensures !('a' <= c <= 'z') && !('A' <= c <= 'Z') ==> Upper(c) == Lower(c) == c
  {
  }

  function Underscores(n: nat): string {
    if n == 0 then "" else "_" + Underscores(n - 1)
  }

  /** The label is the display name, or the queue's name without its leading underscores. */
  lemma {:induction false} LabelShows(n: nat, core: string, status: DrainStatus, error: string, displayName: Option<string>)
    requires core == "" || core[0] != '_'
    ensures Label(BackendDrainResult(Underscores(n) + core, status, error, displayName))
         == Capitalize(if displayName.Some? && displayName.value != "" then displayName.value else core)
  {
    Stripped(n, core);
  }

  lemma {:induction false} Stripped(n: nat, core: string)
    requires core == "" || core[0] != '_'
    ensures StripUnderscores(Underscores(n) + core) == core
  {
    if n == 0 {
      assert Underscores(0) + core == core;
    } else {
      Stripped(n - 1, core);
      assert (Underscores(n) + core)[1..] == Underscores(n - 1) + core;
    }
  }
}
