/**
 * The parts every handler of both endpoints shares: the authentication gate,
 * the catch blocks, the cleanup discipline of the handlers that build a
 * deposit, the Last-Modified value and addGenerator's effect on a receipt.
 *
 * A handler runs in two stages. Its try block produces an `Attempt`: the
 * reply so far, how the block stopped, the deposit, the manager calls, the
 * rendered entry and the receipt's final state. `Settle` then applies the
 * catch blocks and the finally block; `Gate` puts the authentication check
 * in front.
 */
module Endpoint {
  import opened Wrappers
  import opened Atom
  import opened Receipts
  import opened ReceiptProperties
  import opened Sword
  import opened Servlet

  const WwwAuthenticateHeader: string := "WWW-Authenticate"
  const BasicChallenge: string := "Basic realm=\"SWORD2\""
  const ContentTypeHeader: string := "Content-Type"
  const LocationHeader: string := "Location"
  const LastModifiedHeader: string := "Last-Modified"
  const ContentMD5Header: string := "Content-MD5"
  const PackagingHeader: string := "Packaging"

  const EntryType: string := "application/atom+xml;type=entry"
  const AtomPrefix: string := "application/atom+xml"
  const MultipartPrefix: string := "multipart/related"

  const MultipartMessage: string := "This server does not support RFC2387 Multipart uploads, to be removed in SWORD v2.1"

  predicate StartsWith(s: string, prefix: string) {
    |prefix| <= |s| && s[..|prefix|] == prefix
  }

  /** How a try block stopped. */
  datatype Stop = Completed | Raising(raised: Raised) | NullPointer

  datatype Attempt = Attempt(
    reply: Reply,
    stop: Stop,
    deposit: Option<Deposit>,
    calls: seq<Call>,
    rendered: Option<Entry>,
    receipt: Option<ReceiptState>)

  /** A handled request: the reply, the trace, and the final state of the receipt a manager returned. */
  datatype Handled = Handled(reply: Reply, trace: Trace, receipt: Option<ReceiptState>)

  /** The catch blocks' effect on the reply. */
  function AfterCatch(r: Reply, x: Raised): Reply {
    match x
    case SwordFailure(e) => r.WithSwordError(e)
    case ServerFailure(_) => r
    case AuthFailure => r.WithError(StatusForbidden, None)
  }

  /** A SwordServerException leaves as a ServletException; the others are answered. */
  function ExitOf(x: Raised): Exit {
    if x.ServerFailure? then ServletFault(x.message) else Returned
  }

  /**
   * Cleanups in a handler that builds a deposit: once in the finally block,
   * and once more in the SwordError and SwordAuthException catch blocks.
   */
  function DepositCleanups(stop: Stop): nat {
    if stop.Raising? && !stop.raised.ServerFailure? then 2 else 1
  }

  /** The catch and finally blocks; `cleans` says whether the handler has them run cleanup. */
  function Settle(a: Attempt, cleans: bool): Handled {
    var cleanups := if cleans then DepositCleanups(a.stop) else 0;
    match a.stop
    case Completed => Handled(a.reply, Trace(a.calls, a.deposit, cleanups, Returned, None, a.rendered), a.receipt)
    case NullPointer => Handled(a.reply, Trace(a.calls, a.deposit, cleanups, NullDereference, None, a.rendered), a.receipt)
    case Raising(x) => Handled(AfterCatch(a.reply, x), Trace(a.calls, a.deposit, cleanups, ExitOf(x), Some(x), a.rendered), a.receipt)
  }

  /** The answer to refused credentials: a challenge when the client may retry, else 400. */
  function Refusal(r: Reply, retry: bool, message: string): Reply {
    if retry then r.WithHeader(WwwAuthenticateHeader, BasicChallenge).WithStatus(StatusUnauthorized)
    else r.WithError(StatusBadRequest, Some(message))
  }

  /** The authentication gate in front of a try block. */
  function Gate(r0: Reply, auth: AuthResult, a: Attempt, cleans: bool): Handled {
    match auth
    case Refused(retry, message) => Handled(Refusal(r0, retry, message), Trace([], None, 0, Returned, None, None), None)
    case Authenticated => Settle(a, cleans)
  }

  /** The Last-Modified value: the object's own date, else the current time. */
  function LastModified(lastModified: Option<int>, tk: Toolkit): string {
    tk.httpDate(lastModified.GetOr(tk.now))
  }

  /** A receipt after addGenerator: the generator element, if configured, joins the wrapped entry. */
  function Generated(s: ReceiptState, config: Config): ReceiptState {
    if config.generator.Some? then s.WithWrappedElement(config.generator.value) else s
  }

  function RenderedOr(rendered: Option<Entry>): Entry {
    rendered.GetOr(EmptyEntry)
  }

  /** The receipt a manager call returned, as a frame. */
  function ReceiptFrame(o: Outcome<DepositReceipt>): set<object> {
    if o.Ok? then {o.value} else {}
  }

  function StateOf(o: Outcome<DepositReceipt>): Outcome<ReceiptState>
    reads ReceiptFrame(o)
  {
    match o
    case Ok(receipt) => Ok(receipt.State())
    case Throws(x) => Throws(x)
  }

  // ---------------------------------------------------------------------------
  // Shared handler steps

  method Refuse(resp: Response, retry: bool, message: string) returns (t: Trace)
    modifies resp
    ensures resp.Value() == Refusal(old(resp.Value()), retry, message)
    ensures t == Trace([], None, 0, Returned, None, None)
  {
    if retry {
      resp.SetHeader(WwwAuthenticateHeader, BasicChallenge);
      resp.SetStatus(StatusUnauthorized);
    } else {
      resp.SendError(StatusBadRequest, Some(message));
    }
    t := Trace([], None, 0, Returned, None, None);
  }

  /** The catch blocks and the finally block, applied to how the try block stopped. */
  method Conclude(resp: Response, stop: Stop, deposit: Option<Deposit>, calls: seq<Call>, rendered: Option<Entry>, cleans: bool)
    returns (t: Trace)
    modifies resp
    ensures var h := Settle(Attempt(old(resp.Value()), stop, deposit, calls, rendered, None), cleans);
            resp.Value() == h.reply && t == h.trace
  {
    var cleanups := 0;
    var exit := Returned;
    var caught := None;
    match stop {
      case Completed =>
      case NullPointer =>
        exit := NullDereference;
      case Raising(x) =>
        caught := Some(x);
        match x {
          case SwordFailure(e) =>
            if cleans { cleanups := cleanups + 1; }
            resp.SendSwordError(e);
          case ServerFailure(message) =>
            exit := ServletFault(message);
          case AuthFailure =>
            if cleans { cleanups := cleanups + 1; }
            resp.SendError(StatusForbidden, None);
        }
    }
    if cleans {
      cleanups := cleanups + 1;
    }
    t := Trace(calls, deposit, cleanups, exit, caught, rendered);
  }

  // ---------------------------------------------------------------------------
  // Properties shared by every handler

  /**
   * Refused credentials: a retry gets 401 with the Basic challenge for realm
   * SWORD2, anything else an error page 400 with the exception's message; no
   * manager is called, no deposit is built and no cleanup runs.
   */
  lemma RefusedCredentials(r0: Reply, auth: AuthResult, a: Attempt, cleans: bool)
    requires auth.Refused?
    ensures var h := Gate(r0, auth, a, cleans);
            && h.trace.calls == [] && h.trace.deposit.None? && h.trace.cleanups == 0
            && h.trace.exit == Returned && h.reply.body == r0.body && h.receipt.None?
            && (auth.retry ==> h.reply.status == StatusUnauthorized && h.reply.sent == r0.sent
                               && h.reply.headers == r0.headers[WwwAuthenticateHeader := BasicChallenge])
            && (!auth.retry ==> h.reply.sent == Some(ErrorPage(StatusBadRequest, Some(auth.message)))
                                && h.reply.headers == r0.headers)
  {
  }

  /**
   * The catch blocks: a SwordError is answered with its error document, a
   * SwordAuthException with 403, and a SwordServerException leaves as a
   * ServletException with the reply as it stood. Nothing else of the attempt
   * is lost.
   */
  lemma CaughtExceptions(a: Attempt, cleans: bool, x: Raised)
    requires a.stop == Raising(x)
    ensures var h := Settle(a, cleans);
            && h.trace.caught == Some(x)
            && h.trace.calls == a.calls && h.trace.deposit == a.deposit && h.receipt == a.receipt
            && h.reply.body == a.reply.body && h.reply.headers == a.reply.headers
            && (x.SwordFailure? ==> h.reply.sent == Some(ErrorDocument(x.error)) && h.trace.exit == Returned)
            && (x.AuthFailure? ==> h.reply.sent == Some(ErrorPage(StatusForbidden, None))
                                   && h.reply.status == StatusForbidden && h.trace.exit == Returned)
            && (x.ServerFailure? ==> h.reply == a.reply && h.trace.exit == ServletFault(x.message))
  {
  }

  /**
   * Cleanup in the handlers that build a deposit runs on every exit path:
   * twice when a SwordError or SwordAuthException was caught (catch block and
   * finally block), once otherwise.
   */
  lemma CleanupOnEveryPath(a: Attempt)
    ensures Settle(a, true).trace.cleanups >= 1
    ensures Settle(a, true).trace.cleanups == 2 <==>
              Settle(a, true).trace.caught.Some? && !Settle(a, true).trace.caught.value.ServerFailure?
    ensures Settle(a, false).trace.cleanups == 0
  {
  }

  /**
   * addGenerator puts the generator after the wrapped entry's own children,
   * so in the rendering it precedes every section getAbderaEntry adds.
   */
  lemma GeneratorPrecedesSections(e: Entry, s: ReceiptState, config: Config)
    requires config.generator.Some?
    requires IsRenderingOf(e, Generated(s, config))
    ensures |s.entry.children| < |e.children|
    ensures e.children[..|s.entry.children|] == s.entry.children
    ensures e.children[|s.entry.children|] == config.generator.value
  {
    var g := Generated(s, config);
    var st, dr := RenderingPieces(e, g);
    assert g.entry.children == s.entry.children + [config.generator.value];
    assert e.children[..|g.entry.children|] == g.entry.children;
    assert e.children[..|s.entry.children|] == g.entry.children[..|s.entry.children|];
  }
}
