/**
 * The alerts the error log and the main loop see, and the error codes they
 * carry, as values.
 *
 * An error code is a (category, value) pair, compared as boost.system does:
 * two codes are equal when category and value are, and a code is equivalent
 * to a portable `errc` condition when it is a generic- or system-category code
 * with that errno value (on POSIX the system category maps errno values onto
 * the generic category). Errno values are those of Linux. The libtorrent
 * enumerator values are assigned by libtorrent's error_code.hpp, which is not
 * part of this model; no proof depends on them beyond their being distinct.
 */
module Alerts {

  datatype Category =
    | GenericCategory        // boost::system::generic_category(), the errc conditions
    | SystemCategory         // boost::system::system_category(), OS errno codes
    | AsioMiscCategory       // boost::asio::error::get_misc_category()
    | AsioSslCategory        // boost::asio::error::get_ssl_category()
    | LibtorrentCategory     // libtorrent::get_libtorrent_category()
    | OtherCategory(id: int) // any category the daemon does not name

  datatype ErrorCode = ErrorCode(category: Category, value: int)

  /** `error_code == errc::X`: equivalence with a portable condition. */
  predicate IsCondition(e: ErrorCode, errno: int)
  {
    (e.category == GenericCategory || e.category == SystemCategory) && e.value == errno
  }

  // errno values named by boost::system::errc and boost::asio::error (Linux).
  const ECONNRESET := 104
  const ECONNABORTED := 103
  const ECONNREFUSED := 111
  const ETIMEDOUT := 110
  const EHOSTUNREACH := 113
  const ENETUNREACH := 101
  const EPIPE := 32

  // boost::asio::error::eof is value 2 of the asio misc category.
  const AsioEof := ErrorCode(AsioMiscCategory, 2)
  // The asio basic errors are system-category codes.
  const HostUnreachable := ErrorCode(SystemCategory, EHOSTUNREACH)
  const NetworkUnreachable := ErrorCode(SystemCategory, ENETUNREACH)
  const BrokenPipe := ErrorCode(SystemCategory, EPIPE)
  /** The OpenSSL "unknown protocol" error, as the daemon spells it. */
  const SslUnknownProtocol := ErrorCode(AsioSslCategory, 336027900)

  function LibtorrentError(v: int): ErrorCode { ErrorCode(LibtorrentCategory, v) }

  // libtorrent::errors enumerators (stand-in values, see above).
  const TimedOut := LibtorrentError(36)
  const UploadUploadConnection := LibtorrentError(37)
  const TorrentAborted := LibtorrentError(46)
  const SelfConnection := LibtorrentError(47)
  const TimedOutNoHandshake := LibtorrentError(51)
  const DuplicatePeerId := LibtorrentError(79)
  const TorrentRemoved := LibtorrentError(80)
  const StoppingTorrent := LibtorrentError(92)
  const SessionClosing := LibtorrentError(96)

  /** A peer's address and port, only ever rendered by `print_endpoint`. */
  datatype Endpoint = Endpoint(address: seq<int>, port: int)

  /**
   * An alert. The six kinds the error log subscribes to carry what it reads
   * of them; every other kind is carried opaquely.
   */
  datatype Alert =
    | PeerErrorAlert(ip: Endpoint, error: ErrorCode)
    | PeerDisconnectedAlert(ip: Endpoint, operation: int, error: ErrorCode)
    | SaveResumeDataFailedAlert(error: ErrorCode)
    | TorrentDeleteFailedAlert(error: ErrorCode)
    | StorageMovedFailedAlert(error: ErrorCode)
    | FileRenameFailedAlert(error: ErrorCode)
    | OtherAlert(typeId: int)

  /** The `alert_type` of an alert, as `alert::type()` reports it. */
  datatype AlertKind =
    | PeerErrorKind
    | PeerDisconnectedKind
    | SaveResumeDataFailedKind
    | TorrentDeleteFailedKind
    | StorageMovedFailedKind
    | FileRenameFailedKind
    | OtherKind

  function KindOf(a: Alert): AlertKind
  {
    match a
    case PeerErrorAlert(_, _) => PeerErrorKind
    case PeerDisconnectedAlert(_, _, _) => PeerDisconnectedKind
    case SaveResumeDataFailedAlert(_) => SaveResumeDataFailedKind
    case TorrentDeleteFailedAlert(_) => TorrentDeleteFailedKind
    case StorageMovedFailedAlert(_) => StorageMovedFailedKind
    case FileRenameFailedAlert(_) => FileRenameFailedKind
    case OtherAlert(_) => OtherKind
  }

  /**
   * The string renderings the daemon takes from code it does not define:
   * `print_endpoint`, `operation_name`, `error_category::name`,
   * `error_code::message` and `alert::message`. They are left uninterpreted.
   */
  datatype Formatters = Formatters(
    endpoint: Endpoint -> string,
    operationName: int -> string,
    categoryName: Category -> string,
    errorMessage: ErrorCode -> string,
    alertMessage: Alert -> string)

  /** Decimal digits of a natural number, as printf's `%d` writes them. */
  function NatDigits(n: nat): (s: string)
    ensures |s| >= 1
    ensures forall k :: 0 <= k < |s| ==> '0' <= s[k] <= '9'
    decreases n
  {
    var d := [(n % 10) as char + '0'];
    if n < 10 then d else NatDigits(n / 10) + d
  }

  /** printf's `%d`: a minus sign before the digits of a negative value. */
  function Decimal(n: int): (s: string)
    ensures |s| >= 1
    ensures s[0] == '-' <==> n < 0
  {
    if n < 0 then "-" + NatDigits(-n) else NatDigits(n)
  }

  /** The value a string of decimal digits denotes, read most significant digit first. */
  function DigitsValue(s: string): int
    decreases |s|
  {
    if s == [] then 0 else DigitsValue(s[..|s| - 1]) * 10 + (s[|s| - 1] as int - '0' as int)
  }

  /** The value a `%d` rendering denotes: a leading '-' negates the digits after it. */
  function DecimalValue(s: string): int
  {
    if |s| > 0 && s[0] == '-' then -DigitsValue(s[1..]) else DigitsValue(s)
  }

  /** The digits spell out `n`. */
  lemma {:induction false} NatDigitsValue(n: nat)
    ensures DigitsValue(NatDigits(n)) == n
    decreases n
  {
    var d := [(n % 10) as char + '0'];
    if n < 10 {
      assert d[..0] == [];
    } else {
      var s := NatDigits(n / 10) + d;
      assert s[..|s| - 1] == NatDigits(n / 10);
      NatDigitsValue(n / 10);
    }
  }

  /** `%d` is read back as the value it printed, so distinct values print differently. */
  lemma DecimalValueRoundTrip(n: int)
    ensures DecimalValue(Decimal(n)) == n
  {
    if n < 0 {
      NatDigitsValue(-n);
      assert ("-" + NatDigits(-n))[1..] == NatDigits(-n);
    } else {
      NatDigitsValue(n);
    }
  }
}
