/**
 * `error_logger`: the alert observer that appends actionable peer errors,
 * disconnects and storage failures to the error log, one line per alert,
 * and suppresses the disconnect reasons that are routine network churn.
 *
 * The build flag `TORRENT_USE_OPENSSL` is the parameter `useOpenSsl`.
 */
module ErrorLog {
  import opened Wrappers
  import opened Alerts
  import opened Timestamp

  /** The kinds passed to `alert_handler::subscribe`, in source order. */
  const LoggedKinds: seq<AlertKind> := [
    PeerDisconnectedKind, PeerErrorKind, SaveResumeDataFailedKind,
    TorrentDeleteFailedKind, StorageMovedFailedKind, FileRenameFailedKind
  ]

  // ---------------------------------------------------------------------
  // Suppression table, the reference statement of which codes are churn
  // ---------------------------------------------------------------------

  /** A suppressed disconnect reason: a portable `errc` condition, or one exact code. */
  datatype SuppressionRule = Condition(errno: int) | Exact(code: ErrorCode)

  predicate Matches(rule: SuppressionRule, e: ErrorCode)
  {
    match rule
    case Condition(errno) => IsCondition(e, errno)
    case Exact(code) => e == code
  }

  /** The disconnect reasons that are not logged; the SSL rule exists only in OpenSSL builds. */
  function DisconnectSuppressions(useOpenSsl: bool): seq<SuppressionRule>
  {
    NetworkChurn + (if useOpenSsl then [Exact(SslUnknownProtocol)] else []) + LibtorrentChurn
  }

  /** The errno conditions and asio codes suppressed in every build. */
  const NetworkChurn: seq<SuppressionRule> := [
    Condition(ECONNRESET), Condition(ECONNABORTED), Condition(ECONNREFUSED),
    Condition(ETIMEDOUT), Exact(AsioEof), Exact(HostUnreachable),
    Exact(NetworkUnreachable), Exact(BrokenPipe)
  ]

  /** The libtorrent teardown and handshake codes suppressed in every build. */
  const LibtorrentChurn: seq<SuppressionRule> := [
    Exact(SelfConnection), Exact(TorrentRemoved), Exact(TorrentAborted),
    Exact(StoppingTorrent), Exact(SessionClosing), Exact(DuplicatePeerId),
    Exact(TimedOut), Exact(TimedOutNoHandshake), Exact(UploadUploadConnection)
  ]

  predicate SuppressedDisconnect(e: ErrorCode, useOpenSsl: bool)
  {
    exists r :: r in DisconnectSuppressions(useOpenSsl) && Matches(r, e)
  }

  /** A peer error is suppressed only for the SSL "unknown protocol" error of OpenSSL builds. */
  predicate SuppressedPeerError(e: ErrorCode, useOpenSsl: bool)
  {
    useOpenSsl && e == SslUnknownProtocol
  }

  // ---------------------------------------------------------------------
  // Line formats
  // ---------------------------------------------------------------------

  // Each `%s` argument is printed up to its first NUL, as `CString` gives it.

  /** Every format begins `"%s\t"` with the timestamp and ends with a newline. */
  function Line(stamp: string, text: string): string
  {
    stamp + "\t" + text + "\n"
  }

  /** `"%s\terror [%s] (%s:%d) %s\n"` */
  function ErrorLine(stamp: string, ip: Endpoint, e: ErrorCode, fmt: Formatters): string
  {
    Line(stamp, ErrorText(ip, e, fmt))
  }

  function ErrorText(ip: Endpoint, e: ErrorCode, fmt: Formatters): string
  {
    "error [" + CString(fmt.endpoint(ip)) + "] (" + CString(fmt.categoryName(e.category)) + ":"
      + Decimal(e.value) + ") " + CString(fmt.errorMessage(e))
  }

  /** `"%s\tdisconnect [%s][%s] (%s:%d) %s\n"` */
  function DisconnectLine(stamp: string, ip: Endpoint, op: int, e: ErrorCode, fmt: Formatters): string
  {
    Line(stamp, DisconnectText(ip, op, e, fmt))
  }

  function DisconnectText(ip: Endpoint, op: int, e: ErrorCode, fmt: Formatters): string
  {
    "disconnect [" + CString(fmt.endpoint(ip)) + "][" + CString(fmt.operationName(op)) + "] ("
      + CString(fmt.categoryName(e.category)) + ":" + Decimal(e.value) + ") " + CString(fmt.errorMessage(e))
  }

  /** `"%s\t<label> (%s:%d) %s\n"`, whose last field is the alert's own message. */
  function FailureLine(stamp: string, kindLabel: string, e: ErrorCode, message: string, fmt: Formatters): string
  {
    Line(stamp, FailureText(kindLabel, e, message, fmt))
  }

  function FailureText(kindLabel: string, e: ErrorCode, message: string, fmt: Formatters): string
  {
    kindLabel + " (" + CString(fmt.categoryName(e.category)) + ":" + Decimal(e.value) + ") " + CString(message)
  }

  function FailureLabel(k: AlertKind): string
  {
    match k
    case SaveResumeDataFailedKind => "save-resume-failed"
    case TorrentDeleteFailedKind => "storage-delete-failed"
    case StorageMovedFailedKind => "storage-move-failed"
    case FileRenameFailedKind => "file-rename-failed"
    case _ => ""
  }

  /**
   * The reference classification: the one line an alert earns, if any.
   * Storage failures are always logged; peer errors and disconnects unless
   * suppressed; every other kind never.
   */
  function LogEntry(a: Alert, stamp: string, useOpenSsl: bool, fmt: Formatters): Option<string>
  {
    match a
    case PeerErrorAlert(ip, e) =>
      if SuppressedPeerError(e, useOpenSsl) then None else Some(ErrorLine(stamp, ip, e, fmt))
    case PeerDisconnectedAlert(ip, op, e) =>
      if SuppressedDisconnect(e, useOpenSsl) then None else Some(DisconnectLine(stamp, ip, op, e, fmt))
    case OtherAlert(_) => None
    case _ => Some(FailureLine(stamp, FailureLabel(KindOf(a)), a.error, fmt.alertMessage(a), fmt))
  }

  function EntryLines(entry: Option<string>): seq<string>
  {
    match entry
    case None => []
    case Some(line) => [line]
  }

  // ---------------------------------------------------------------------
  // The switch of handle_alert, as written
  // ---------------------------------------------------------------------

  /** `alert_cast<T>(a)`: the alert itself when its dynamic type is `k`, null otherwise. */
  function AlertCast(a: Alert, k: AlertKind): (r: Option<Alert>)
    ensures r.Some? <==> KindOf(a) == k
    ensures r.Some? ==> r.value == a
  {
    if KindOf(a) == k then Some(a) else None
  }

  /** The condition guarding the disconnect line: the chain of `!=` tests, in source order. */
  predicate DisconnectGuard(e: ErrorCode, useOpenSsl: bool)
  {
    && !IsCondition(e, ECONNRESET)
    && !IsCondition(e, ECONNABORTED)
    && !IsCondition(e, ECONNREFUSED)
    && !IsCondition(e, ETIMEDOUT)
    && e != AsioEof
    && e != HostUnreachable
    && e != NetworkUnreachable
    && e != BrokenPipe
    && (useOpenSsl ==> e != SslUnknownProtocol)
    && e != SelfConnection
    && e != TorrentRemoved
    && e != TorrentAborted
    && e != StoppingTorrent
    && e != SessionClosing
    && e != DuplicatePeerId
    && e != TimedOut
    && e != TimedOutNoHandshake
    && e != UploadUploadConnection
  }

  /**
   * The four storage-failure cases, which end without `break`: control runs
   * from the case entered through every later one.
   */
  datatype FailureCase = SaveResumeCase | DeleteCase | MoveCase | RenameCase

  function CaseKind(c: FailureCase): AlertKind
  {
    match c
    case SaveResumeCase => SaveResumeDataFailedKind
    case DeleteCase => TorrentDeleteFailedKind
    case MoveCase => StorageMovedFailedKind
    case RenameCase => FileRenameFailedKind
  }

  function CaseIndex(c: FailureCase): nat
  {
    match c
    case SaveResumeCase => 0
    case DeleteCase => 1
    case MoveCase => 2
    case RenameCase => 3
  }

  /** The case control falls into from `c`, if it has no `break`. */
  function NextCase(c: FailureCase): (n: Option<FailureCase>)
    ensures n.Some? ==> CaseIndex(n.value) == CaseIndex(c) + 1
    ensures n.None? <==> c == RenameCase
  {
    match c
    case SaveResumeCase => Some(DeleteCase)
    case DeleteCase => Some(MoveCase)
    case MoveCase => Some(RenameCase)
    case RenameCase => None
  }

  /** One case body: write its line if `alert_cast` to its type is not null. */
  function CaseBody(c: FailureCase, a: Alert, stamp: string, fmt: Formatters): seq<string>
  {
    match AlertCast(a, CaseKind(c))
    case None => []
    case Some(x) => [FailureLine(stamp, FailureLabel(CaseKind(c)), x.error, fmt.alertMessage(x), fmt)]
  }

  /** Case body `c` followed by every case it falls through into. */
  function FallThrough(c: FailureCase, a: Alert, stamp: string, fmt: Formatters): seq<string>
    decreases 3 - CaseIndex(c)
  {
    CaseBody(c, a, stamp, fmt) +
    match NextCase(c)
    case None => []
    case Some(n) => FallThrough(n, a, stamp, fmt)
  }

  /** What one call of `handle_alert` writes to an open log, `switch (a->type())` as written. */
  function SwitchLines(a: Alert, stamp: string, useOpenSsl: bool, fmt: Formatters): seq<string>
  {
    match KindOf(a)
    case PeerErrorKind =>
      if !useOpenSsl || a.error != SslUnknownProtocol then [ErrorLine(stamp, a.ip, a.error, fmt)] else []
    case PeerDisconnectedKind =>
      (match AlertCast(a, PeerDisconnectedKind)
       case None => []
       case Some(pd) =>
         if DisconnectGuard(pd.error, useOpenSsl)
         then [DisconnectLine(stamp, pd.ip, pd.operation, pd.error, fmt)]
         else [])
    case SaveResumeDataFailedKind => FallThrough(SaveResumeCase, a, stamp, fmt)
    case TorrentDeleteFailedKind => FallThrough(DeleteCase, a, stamp, fmt)
    case StorageMovedFailedKind => FallThrough(MoveCase, a, stamp, fmt)
    case FileRenameFailedKind => FallThrough(RenameCase, a, stamp, fmt)
    case OtherKind => []
  }

  // ---------------------------------------------------------------------
  // The observer
  // ---------------------------------------------------------------------

  class ErrorLogger {
    /** `m_file != NULL`. */
    var fileOpen: bool
    /** The lines appended to `m_file`. */
    var log: seq<string>
    /** The kinds this observer is subscribed to on the alert handler; empty when not subscribed. */
    var subscription: seq<AlertKind>
    /** Whether standard output and standard error were redirected into the log. */
    var redirectedOutput: bool
    /** Whether the failure to open the log was reported on standard error. */
    var openFailureReported: bool

    /**
     * An empty path leaves the logger inert. Otherwise it opens the file for
     * append (`fopenSucceeds` is the outcome of `fopen`) and subscribes to
     * the six kinds whether or not the file opened.
     */
    constructor (logFile: string, redirectStderr: bool, fopenSucceeds: bool)
      ensures fileOpen == (logFile != "" && fopenSucceeds)
      ensures log == []
      ensures subscription == if logFile == "" then [] else LoggedKinds
      ensures redirectedOutput == (logFile != "" && fopenSucceeds && redirectStderr)
      ensures openFailureReported == (logFile != "" && !fopenSucceeds)
    {
      fileOpen := false;
      log := [];
      subscription := [];
      redirectedOutput := false;
      openFailureReported := false;
      if logFile != "" {
        fileOpen := fopenSucceeds;
        if !fopenSucceeds {
          openFailureReported := true;
        } else if redirectStderr {
          redirectedOutput := true;
        }
        subscription := LoggedKinds;
      }
    }

    /**
     * `handle_alert`: nothing without an open file; otherwise the timestamp
     * is built from `now` (what `ctime` returned) and the switch writes its
     * lines.
     */
    method HandleAlert(a: Alert, now: string, useOpenSsl: bool, fmt: Formatters)
      modifies this`log
      ensures !fileOpen ==> log == old(log)
      ensures fileOpen ==> log == old(log) + SwitchLines(a, TimestampText(now), useOpenSsl, fmt)
      ensures fileOpen ==> log == old(log) + EntryLines(LogEntry(a, TimestampText(now), useOpenSsl, fmt))
    {
      if !fileOpen {
        return;
      }
      var image := StrncpyImage(now, TimestampSize);
      var timestamp := new char[TimestampSize](k requires 0 <= k < TimestampSize => image[k]);
      assert timestamp[..] == image;
      TrimTimestamp(timestamp);
      var stamp := CString(timestamp[..]);
      SwitchIsOneLine(a, stamp, useOpenSsl, fmt);
      log := log + SwitchLines(a, stamp, useOpenSsl, fmt);
    }

    /** The destructor: unsubscribe and close the file. */
    method Close()
      modifies this`subscription, this`fileOpen
      ensures subscription == [] && !fileOpen
    {
      subscription := [];
      fileOpen := false;
    }
  }

  // ---------------------------------------------------------------------
  // Properties
  // ---------------------------------------------------------------------

  /** The `!=` chain accepts exactly the codes the suppression table does not match. */
  lemma DisconnectGuardIsTable(e: ErrorCode, useOpenSsl: bool)
    ensures DisconnectGuard(e, useOpenSsl) <==> !SuppressedDisconnect(e, useOpenSsl)
  {
    var t := DisconnectSuppressions(useOpenSsl);
    if !DisconnectGuard(e, useOpenSsl) {
      var r: SuppressionRule;
      if IsCondition(e, ECONNRESET) { r := Condition(ECONNRESET); }
      else if IsCondition(e, ECONNABORTED) { r := Condition(ECONNABORTED); }
      else if IsCondition(e, ECONNREFUSED) { r := Condition(ECONNREFUSED); }
      else if IsCondition(e, ETIMEDOUT) { r := Condition(ETIMEDOUT); }
      else if e == AsioEof { r := Exact(AsioEof); }
      else if e == HostUnreachable { r := Exact(HostUnreachable); }
      else if e == NetworkUnreachable { r := Exact(NetworkUnreachable); }
      else if e == BrokenPipe { r := Exact(BrokenPipe); }
      else if useOpenSsl && e == SslUnknownProtocol { r := Exact(SslUnknownProtocol); }
      else if e == SelfConnection { r := Exact(SelfConnection); }
      else if e == TorrentRemoved { r := Exact(TorrentRemoved); }
      else if e == TorrentAborted { r := Exact(TorrentAborted); }
      else if e == StoppingTorrent { r := Exact(StoppingTorrent); }
      else if e == SessionClosing { r := Exact(SessionClosing); }
      else if e == DuplicatePeerId { r := Exact(DuplicatePeerId); }
      else if e == TimedOut { r := Exact(TimedOut); }
      else if e == TimedOutNoHandshake { r := Exact(TimedOutNoHandshake); }
      else { r := Exact(UploadUploadConnection); }
      assert r in t && Matches(r, e);
    }
  }

  /** Seventeen suppressed reasons in every build, plus the SSL one in OpenSSL builds. */
  lemma DisconnectSuppressionsTable(useOpenSsl: bool)
    ensures |DisconnectSuppressions(useOpenSsl)| == if useOpenSsl then 18 else 17
    ensures SuppressedDisconnect(SslUnknownProtocol, useOpenSsl) <==> useOpenSsl
  {
    var t := DisconnectSuppressions(useOpenSsl);
    assert |NetworkChurn| == 8 && |LibtorrentChurn| == 9;
    if useOpenSsl {
      assert Exact(SslUnknownProtocol) in t;
    } else {
      DisconnectGuardIsTable(SslUnknownProtocol, useOpenSsl);
    }
  }

  /** Falling through from case `c` past cases of other types adds nothing. */
  lemma {:induction false} FallThroughPastOthers(c: FailureCase, a: Alert, stamp: string, fmt: Formatters)
    requires forall d :: CaseIndex(d) >= CaseIndex(c) ==> CaseKind(d) != KindOf(a)
    ensures FallThrough(c, a, stamp, fmt) == []
    decreases 3 - CaseIndex(c)
  {
    match NextCase(c)
    case None =>
    case Some(n) => FallThroughPastOthers(n, a, stamp, fmt);
  }

  /**
   * Entering the fall-through chain at the case of the alert's own type
   * writes exactly that case's line.
   */
  lemma {:induction false} FallThroughWritesOwnLine(c: FailureCase, a: Alert, stamp: string, fmt: Formatters)
    requires KindOf(a) == CaseKind(c)
    ensures FallThrough(c, a, stamp, fmt)
         == [FailureLine(stamp, FailureLabel(KindOf(a)), a.error, fmt.alertMessage(a), fmt)]
  {
    match NextCase(c)
    case None =>
    case Some(n) =>
      forall d | CaseIndex(d) >= CaseIndex(n) ensures CaseKind(d) != KindOf(a) {
        assert d != c;
      }
      FallThroughPastOthers(n, a, stamp, fmt);
  }

  /** Despite the missing `break`s, the switch as written writes exactly the reference line. */
  lemma SwitchIsOneLine(a: Alert, stamp: string, useOpenSsl: bool, fmt: Formatters)
    ensures SwitchLines(a, stamp, useOpenSsl, fmt) == EntryLines(LogEntry(a, stamp, useOpenSsl, fmt))
    ensures |SwitchLines(a, stamp, useOpenSsl, fmt)| <= 1
  {
    match a
    case PeerErrorAlert(_, _) =>
    case PeerDisconnectedAlert(_, _, e) => DisconnectGuardIsTable(e, useOpenSsl);
    case SaveResumeDataFailedAlert(_) => FallThroughWritesOwnLine(SaveResumeCase, a, stamp, fmt);
    case TorrentDeleteFailedAlert(_) => FallThroughWritesOwnLine(DeleteCase, a, stamp, fmt);
    case StorageMovedFailedAlert(_) => FallThroughWritesOwnLine(MoveCase, a, stamp, fmt);
    case FileRenameFailedAlert(_) => FallThroughWritesOwnLine(RenameCase, a, stamp, fmt);
    case OtherAlert(_) =>
  }

  /** A disconnect is logged, as one `disconnect` line, exactly when its reason is not suppressed. */
  lemma DisconnectLoggedIff(ip: Endpoint, op: int, e: ErrorCode, stamp: string, useOpenSsl: bool, fmt: Formatters)
    ensures SwitchLines(PeerDisconnectedAlert(ip, op, e), stamp, useOpenSsl, fmt)
         == if SuppressedDisconnect(e, useOpenSsl) then [] else [DisconnectLine(stamp, ip, op, e, fmt)]
  {
    DisconnectGuardIsTable(e, useOpenSsl);
  }

  /**
   * A peer error is always logged as one `error` line, except the SSL
   * "unknown protocol" error in OpenSSL builds; in particular the churn codes
   * that silence a disconnect do not silence a peer error.
   */
  lemma PeerErrorLoggedIff(ip: Endpoint, e: ErrorCode, stamp: string, useOpenSsl: bool, fmt: Formatters)
    ensures SwitchLines(PeerErrorAlert(ip, e), stamp, useOpenSsl, fmt)
         == if useOpenSsl && e == SslUnknownProtocol then [] else [ErrorLine(stamp, ip, e, fmt)]
    ensures SuppressedDisconnect(e, useOpenSsl) && e != SslUnknownProtocol ==>
              |SwitchLines(PeerErrorAlert(ip, e), stamp, useOpenSsl, fmt)| == 1
  {
  }

  /** Each storage failure writes one line with its own label; other kinds write nothing. */
  lemma FailureAlertsLabelled(a: Alert, stamp: string, useOpenSsl: bool, fmt: Formatters)
    ensures KindOf(a) in [SaveResumeDataFailedKind, TorrentDeleteFailedKind, StorageMovedFailedKind, FileRenameFailedKind] ==>
      SwitchLines(a, stamp, useOpenSsl, fmt)
        == [Line(stamp, FailureLabel(KindOf(a)) + " (" + CString(fmt.categoryName(a.error.category)) + ":"
            + Decimal(a.error.value) + ") " + CString(fmt.alertMessage(a)))]
    ensures KindOf(a) !in LoggedKinds ==> SwitchLines(a, stamp, useOpenSsl, fmt) == []
  {
    SwitchIsOneLine(a, stamp, useOpenSsl, fmt);
  }

  /**
   * The subscription is exactly the set of kinds that can produce a line:
   * every logged alert is of a subscribed kind, and every subscribed kind
   * has an alert that is logged.
   */
  lemma SubscriptionIsLoggableKinds(k: AlertKind, stamp: string, useOpenSsl: bool, fmt: Formatters)
    ensures k in LoggedKinds <==>
      exists a :: KindOf(a) == k && SwitchLines(a, stamp, useOpenSsl, fmt) != []
  {
    if k == OtherKind {
      forall a' | KindOf(a') == k ensures SwitchLines(a', stamp, useOpenSsl, fmt) == [] {
        FailureAlertsLabelled(a', stamp, useOpenSsl, fmt);
      }
    } else {
      var a := LoggedAlertOfKind(k, stamp, useOpenSsl, fmt);
    }
  }

  /** An alert of subscribed kind `k` whose error is not suppressed, which the switch logs. */
  lemma LoggedAlertOfKind(k: AlertKind, stamp: string, useOpenSsl: bool, fmt: Formatters) returns (a: Alert)
    requires k in LoggedKinds
    ensures KindOf(a) == k && SwitchLines(a, stamp, useOpenSsl, fmt) != []
  {
    var ip := Endpoint([], 0);
    var e := ErrorCode(OtherCategory(0), 0);
    match k {
      case PeerErrorKind => a := PeerErrorAlert(ip, e);
      case PeerDisconnectedKind =>
        a := PeerDisconnectedAlert(ip, 0, e);
        DisconnectGuardIsTable(e, useOpenSsl);
      case SaveResumeDataFailedKind => a := SaveResumeDataFailedAlert(e);
      case TorrentDeleteFailedKind => a := TorrentDeleteFailedAlert(e);
      case StorageMovedFailedKind => a := StorageMovedFailedAlert(e);
      case FileRenameFailedKind => a := FileRenameFailedAlert(e);
    }
    SwitchIsOneLine(a, stamp, useOpenSsl, fmt);
  }

  /** Every line the switch writes starts with the timestamp and a tab, and ends with a newline. */
  lemma LineShape(a: Alert, stamp: string, useOpenSsl: bool, fmt: Formatters)
    ensures forall line :: line in SwitchLines(a, stamp, useOpenSsl, fmt) ==>
      |line| >= |stamp| + 2 && line[..|stamp|] == stamp && line[|stamp|] == '\t' && line[|line| - 1] == '\n'
  {
    SwitchIsOneLine(a, stamp, useOpenSsl, fmt);
    match a {
      case PeerErrorAlert(ip, e) => LineFormat(stamp, ErrorText(ip, e, fmt));
      case PeerDisconnectedAlert(ip, op, e) => LineFormat(stamp, DisconnectText(ip, op, e, fmt));
      case OtherAlert(_) =>
      case _ => LineFormat(stamp, FailureText(FailureLabel(KindOf(a)), a.error, fmt.alertMessage(a), fmt));
    }
  }

  lemma LineFormat(stamp: string, text: string)
    ensures var line := Line(stamp, text);
      |line| >= |stamp| + 2 && line[..|stamp|] == stamp && line[|stamp|] == '\t' && line[|line| - 1] == '\n'
  {
    assert Line(stamp, text) == stamp + ("\t" + text + "\n");
  }

  /**
   * `fprintf` writes no NUL: with a NUL-free timestamp, no line the switch
   * writes contains one, whatever the foreign formatters return.
   */
  lemma LinesHaveNoNul(a: Alert, stamp: string, useOpenSsl: bool, fmt: Formatters)
    requires '\0' !in stamp
    ensures forall line :: line in SwitchLines(a, stamp, useOpenSsl, fmt) ==> '\0' !in line
  {
    SwitchIsOneLine(a, stamp, useOpenSsl, fmt);
    match a {
      case PeerErrorAlert(ip, e) =>
        ErrorTextHasNoNul(ip, e, fmt);
        LineHasNoNul(stamp, ErrorText(ip, e, fmt));
      case PeerDisconnectedAlert(ip, op, e) =>
        DisconnectTextHasNoNul(ip, op, e, fmt);
        LineHasNoNul(stamp, DisconnectText(ip, op, e, fmt));
      case OtherAlert(_) =>
      case _ =>
        FailureLabelHasNoNul(KindOf(a));
        FailureTextHasNoNul(FailureLabel(KindOf(a)), a.error, fmt.alertMessage(a), fmt);
        LineHasNoNul(stamp, FailureText(FailureLabel(KindOf(a)), a.error, fmt.alertMessage(a), fmt));
    }
  }

  lemma LineHasNoNul(stamp: string, text: string)
    requires '\0' !in stamp && '\0' !in text
    ensures '\0' !in Line(stamp, text)
  {
  }

  lemma ErrorTextHasNoNul(ip: Endpoint, e: ErrorCode, fmt: Formatters)
    ensures '\0' !in ErrorText(ip, e, fmt)
  {
    DecimalHasNoNul(e.value);
  }

  lemma DisconnectTextHasNoNul(ip: Endpoint, op: int, e: ErrorCode, fmt: Formatters)
    ensures '\0' !in DisconnectText(ip, op, e, fmt)
  {
    DecimalHasNoNul(e.value);
  }

  lemma FailureTextHasNoNul(kindLabel: string, e: ErrorCode, message: string, fmt: Formatters)
    requires '\0' !in kindLabel
    ensures '\0' !in FailureText(kindLabel, e, message, fmt)
  {
    DecimalHasNoNul(e.value);
  }

  lemma FailureLabelHasNoNul(k: AlertKind)
    ensures '\0' !in FailureLabel(k)
  {
  }

  lemma DecimalHasNoNul(n: int)
    ensures '\0' !in Decimal(n)
  {
    if n < 0 {
      assert Decimal(n) == "-" + NatDigits(-n);
    }
  }
}
