/**
 * Verification e-mails (functions/email-verification.js): the message sent
 * when an account is created, the callable that sends a fresh link, and the
 * development endpoint that renders the template. A message is a document
 * appended to the `mail` collection; each attempt is logged in `email_logs`
 * or, on failure, in `email_errors`.
 */
module EmailVerification {
  import opened Common

  const DEFAULT_NAME: string := "cher utilisateur"
  const VERIFY_SUBJECT: string := "✉️ Vérifiez votre email - VenteMoi"
  const RESEND_SUBJECT: string := "✉️ Nouveau lien de vérification - VenteMoi"
  const TEST_SECRET: string := "ventemoi2024"
  const TEST_EMAIL: string := "test@example.com"
  const TEST_NAME: string := "Test User"
  const TEST_LINK: string := "https://app.ventemoi.fr/#/verify?token=TEST_TOKEN_12345"

  // ---------------------------------------------------------------------------
  // The template
  // ---------------------------------------------------------------------------

  /** The fixed text around the three interpolations (the full markup is not modelled). */
  const BEFORE_NAME: string := "<p>Bonjour "
  const BEFORE_BUTTON_LINK: string := ",</p><a href=\""
  const BEFORE_FALLBACK_LINK: string := "\" class=\"button\"></a><div class=\"link-fallback\">"
  const AFTER_LINK: string := "</div>"

  /** A piece of the template: fixed text, or an interpolated value. */
  datatype Piece = Text(text: string) | NameSlot(name: string) | LinkSlot(link: string)

  /** generateVerificationEmailHtml as its sequence of pieces. */
  function VerificationTemplate(userName: string, link: string): seq<Piece> {
    [Text(BEFORE_NAME), NameSlot(userName), Text(BEFORE_BUTTON_LINK), LinkSlot(link),
     Text(BEFORE_FALLBACK_LINK), LinkSlot(link), Text(AFTER_LINK)]
  }

  function PieceText(p: Piece): string {
    match p
    case Text(t) => t
    case NameSlot(n) => n
    case LinkSlot(l) => l
  }

  /** The template literal's value: its pieces one after the other. */
  function Render(pieces: seq<Piece>): string {
    if pieces == [] then "" else Render(pieces[..|pieces| - 1]) + PieceText(pieces[|pieces| - 1])
  }

  /** The interpolated names, in order. */
  function NamesIn(pieces: seq<Piece>): seq<string> {
    if pieces == [] then []
    else NamesIn(pieces[..|pieces| - 1]) + (if pieces[|pieces| - 1].NameSlot? then [pieces[|pieces| - 1].name] else [])
  }

  /** The interpolated links, in order. */
  function LinksIn(pieces: seq<Piece>): seq<string> {
    if pieces == [] then []
    else LinksIn(pieces[..|pieces| - 1]) + (if pieces[|pieces| - 1].LinkSlot? then [pieces[|pieces| - 1].link] else [])
  }

  function VerificationHtml(userName: string, link: string): string {
    Render(VerificationTemplate(userName, link))
  }

  /** The template interpolates the user name once and the link twice. */
  lemma TemplateSlots(userName: string, link: string)
    ensures NamesIn(VerificationTemplate(userName, link)) == [userName]
    ensures LinksIn(VerificationTemplate(userName, link)) == [link, link]
    ensures VerificationHtml(userName, link)
      == BEFORE_NAME + userName + BEFORE_BUTTON_LINK + link + BEFORE_FALLBACK_LINK + link + AFTER_LINK
  {
    SevenPieces(Text(BEFORE_NAME), NameSlot(userName), Text(BEFORE_BUTTON_LINK), LinkSlot(link),
      Text(BEFORE_FALLBACK_LINK), LinkSlot(link), Text(AFTER_LINK));
  }

  function NamesOf(p: Piece): seq<string> {
    if p.NameSlot? then [p.name] else []
  }

  function LinksOf(p: Piece): seq<string> {
    if p.LinkSlot? then [p.link] else []
  }

  /** A seven-piece template, piece by piece. */
  lemma SevenPieces(p0: Piece, p1: Piece, p2: Piece, p3: Piece, p4: Piece, p5: Piece, p6: Piece)
    ensures var ps := [p0, p1, p2, p3, p4, p5, p6];
      && Render(ps) == PieceText(p0) + PieceText(p1) + PieceText(p2) + PieceText(p3)
           + PieceText(p4) + PieceText(p5) + PieceText(p6)
      && NamesIn(ps) == NamesOf(p0) + NamesOf(p1) + NamesOf(p2) + NamesOf(p3) + NamesOf(p4) + NamesOf(p5) + NamesOf(p6)
      && LinksIn(ps) == LinksOf(p0) + LinksOf(p1) + LinksOf(p2) + LinksOf(p3) + LinksOf(p4) + LinksOf(p5) + LinksOf(p6)
  {
    var t1 := [p0];
    var t2 := t1 + [p1];
    var t3 := t2 + [p2];
    var t4 := t3 + [p3];
    var t5 := t4 + [p4];
    var t6 := t5 + [p5];
    assert [p0, p1, p2, p3, p4, p5, p6] == t6 + [p6];
    OnePiece(p0);
    Appended(t1, p1);
    Appended(t2, p2);
    Appended(t3, p3);
    Appended(t4, p4);
    Appended(t5, p5);
    Appended(t6, p6);
  }

  lemma OnePiece(p: Piece)
    ensures Render([p]) == PieceText(p) && NamesIn([p]) == NamesOf(p) && LinksIn([p]) == LinksOf(p)
  {
    assert [p][..0] == [];
  }

  /** Rendering and slot collection of a template with one more piece. */
  lemma Appended(ps: seq<Piece>, p: Piece)
    ensures Render(ps + [p]) == Render(ps) + PieceText(p)
    ensures NamesIn(ps + [p]) == NamesIn(ps) + NamesOf(p)
    ensures LinksIn(ps + [p]) == LinksIn(ps) + LinksOf(p)
  {
    assert (ps + [p])[..|ps|] == ps;
  }

  /**
   * The rendered page carries the name after the greeting, and the link in the
   * button and again in the fallback text.
   */
  lemma TemplatePositions(userName: string, link: string)
    ensures var html := VerificationHtml(userName, link);
      var button := |BEFORE_NAME| + |userName| + |BEFORE_BUTTON_LINK|;
      var fallback := button + |link| + |BEFORE_FALLBACK_LINK|;
      && OccursAt(html, userName, |BEFORE_NAME|)
      && OccursAt(html, link, button)
      && OccursAt(html, link, fallback)
  {
    TemplateSlots(userName, link);
    SlotsAt(BEFORE_NAME, userName, BEFORE_BUTTON_LINK, link, BEFORE_FALLBACK_LINK, AFTER_LINK);
  }

  lemma SlotsAt(a: string, name: string, b: string, link: string, c: string, d: string)
    ensures var html := a + name + b + link + c + link + d;
      && OccursAt(html, name, |a|)
      && OccursAt(html, link, |a| + |name| + |b|)
      && OccursAt(html, link, |a| + |name| + |b| + |link| + |c|)
  {
    var html := a + name + b + link + c + link + d;
    var i := |a| + |name| + |b|;
    var j := i + |link| + |c|;
    assert html[|a|..|a| + |name|] == name;
    assert html[i..i + |link|] == link;
    assert html[j..j + |link|] == link;
  }

  // ---------------------------------------------------------------------------
  // The user name
  // ---------------------------------------------------------------------------

  /** `${v}` for the values a name field can hold; other values render as nothing here. */
  function Display(v: Value): string {
    match v
    case Str(s) => s
    case Int(i) => IntToString(i)
    case Bool(b) => if b then "true" else "false"
    case Record(_) => "[object Object]"
    case NaN => "NaN"
    case Null => "null"
    case Undefined => "undefined"
    case _ => ""
  }

  /**
   * The name greeted in the message: the `users` document's truthy `name`,
   * else 'cher utilisateur'. `read` is the lookup: None when it failed (the
   * failure is swallowed), Some(None) when the document does not exist.
   */
  function UserName(read: Option<Option<Doc>>): (name: string)
    ensures read.None? || read.value.None? ==> name == DEFAULT_NAME
    ensures read.Some? && read.value.Some? && !Truthy(Get(read.value.value, "name")) ==> name == DEFAULT_NAME
    ensures read.Some? && read.value.Some? && Get(read.value.value, "name").Str? && Truthy(Get(read.value.value, "name"))
      ==> name == Get(read.value.value, "name").s
  {
    if read.Some? && read.value.Some? && Truthy(Get(read.value.value, "name")) then Display(Get(read.value.value, "name"))
    else DEFAULT_NAME
  }

  // ---------------------------------------------------------------------------
  // The collections written
  // ---------------------------------------------------------------------------

  /** A document of the `mail` collection, picked up by the mail extension; its status is 'pending'. */
  datatype MailDoc = MailDoc(id: string, to: seq<Value>, subject: string, html: string, status: string)

  datatype EmailLog = EmailLog(logType: string, userId: string, email: Value, emailDocId: string)

  /** A document of `email_errors`; only the account-creation handler records the stack. */
  datatype EmailError = EmailError(errorType: string, userId: string, email: Value, error: string, stack: Option<string>)

  datatype Outbox = Outbox(mail: seq<MailDoc>, logs: seq<EmailLog>, errors: seq<EmailError>)

  /** A thrown error: its message and stack. */
  datatype Failure = Failure(message: string, stack: string)

  /** The created account: uid and e-mail (undefined for an account without one). */
  datatype AuthUser = AuthUser(uid: string, email: Value)

  /** The message sent and its log entry, with the given subject and log type. */
  function Deliver(out: Outbox, user: AuthUser, subject: string, logType: string, html: string, mailId: string): (r: Outbox)
    ensures r.mail == out.mail + [MailDoc(mailId, [user.email], subject, html, "pending")]
    ensures r.logs == out.logs + [EmailLog(logType, user.uid, user.email, mailId)]
    ensures r.errors == out.errors
  {
    Outbox(out.mail + [MailDoc(mailId, [user.email], subject, html, "pending")],
           out.logs + [EmailLog(logType, user.uid, user.email, mailId)],
           out.errors)
  }

  // ---------------------------------------------------------------------------
  // sendCustomVerificationEmail
  // ---------------------------------------------------------------------------

  datatype SendResult = Sent(emailId: string) | NotSent(error: string) | SendRejected

  /**
   * sendCustomVerificationEmail: `link` is the link generation's answer,
   * `read` the name lookup, `mailId` the id the new mail document gets. An
   * account without e-mail makes every write fail, the error record included.
   */
  function Send(out: Outbox, user: AuthUser, link: Result<string, Failure>, read: Option<Option<Doc>>,
                mailId: string): (r: (SendResult, Outbox))
    ensures r.0.Sent? ==> |r.1.mail| == |out.mail| + 1 && |r.1.logs| == |out.logs| + 1 && r.1.errors == out.errors
    ensures r.0.NotSent? ==> r.1.mail == out.mail && r.1.logs == out.logs && |r.1.errors| == |out.errors| + 1
    ensures r.0.SendRejected? ==> r.1 == out
  {
    if user.email == Undefined then (SendRejected, out)
    else match link
      case Err(f) =>
        (NotSent(f.message),
         out.(errors := out.errors + [EmailError("verification_email", user.uid, user.email, f.message, Some(f.stack))]))
      case Ok(l) =>
        (Sent(mailId), Deliver(out, user, VERIFY_SUBJECT, "verification", VerificationHtml(UserName(read), l), mailId))
  }

  // ---------------------------------------------------------------------------
  // resendVerificationEmail
  // ---------------------------------------------------------------------------

  datatype ResendResult = Resent(emailId: string) | AlreadyVerified | Unauthenticated | Internal

  /** The error record of a failed resend, when the store accepts it. */
  function ResendFailed(out: Outbox, user: AuthUser, f: Failure): (r: (ResendResult, Outbox))
    ensures r.0 == Internal
    ensures r.1.mail == out.mail && r.1.logs == out.logs
    // the catch records the failure, without its stack, unless the record itself is refused
    ensures user.email != Undefined ==>
      r.1.errors == out.errors + [EmailError("resend_verification_email", user.uid, user.email, f.message, None)]
    ensures user.email == Undefined ==> r.1 == out
  {
    if user.email == Undefined then (Internal, out)
    else (Internal, out.(errors := out.errors + [EmailError("resend_verification_email", user.uid, user.email, f.message, None)]))
  }

  /**
   * resendVerificationEmail: `auth` is the caller; `verified` the account
   * lookup (its `emailVerified` flag, or the error it threw); `link`, `read`
   * and `mailId` as for the account-creation message.
   */
  function Resend(out: Outbox, auth: Option<AuthUser>, verified: Result<bool, Failure>,
                  link: Result<string, Failure>, read: Option<Option<Doc>>, mailId: string): (r: (ResendResult, Outbox))
    ensures auth.None? ==> r == (Unauthenticated, out)
    ensures auth.Some? && verified == Ok(true) ==> r == (AlreadyVerified, out)
    // a failing account lookup is caught like any other error of the resend
    ensures auth.Some? && verified.Err? && auth.value.email != Undefined ==>
      r == (Internal, out.(errors := out.errors + [EmailError("resend_verification_email", auth.value.uid,
                                                              auth.value.email, verified.error.message, None)]))
    ensures r.0 != Resent(mailId) ==> r.1.mail == out.mail && r.1.logs == out.logs
  {
    match auth
    case None => (Unauthenticated, out)
    case Some(user) =>
      match verified
      case Err(f) => ResendFailed(out, user, f)
      case Ok(isVerified) =>
        if isVerified then (AlreadyVerified, out)
        else match link
          case Err(f) => ResendFailed(out, user, f)
          case Ok(l) =>
            if user.email == Undefined then (Internal, out)
            else (Resent(mailId), Deliver(out, user, RESEND_SUBJECT, "verification_resend", VerificationHtml(UserName(read), l), mailId))
  }

  // ---------------------------------------------------------------------------
  // testVerificationEmail
  // ---------------------------------------------------------------------------

  /**
   * The access check as written: `!isDev && !secret || secret !== 'ventemoi2024'`
   * refuses, and `&&` binds tighter than `||`.
   */
  predicate TestForbidden(isDev: bool, secret: Value) {
    (!isDev && !Truthy(secret)) || secret != Str(TEST_SECRET)
  }

  datatype TestResponse = Forbidden | Page(html: string)

  /** The address and the name the test page uses when the query gives none. */
  function TestDefaults(email: Value, name: Value): (r: (Value, Value))
    ensures !Truthy(email) ==> r.0 == Str(TEST_EMAIL)
    ensures !Truthy(name) ==> r.1 == Str(TEST_NAME)
    ensures Truthy(email) ==> r.0 == email
    ensures Truthy(name) ==> r.1 == name
  {
    (OrElse(email, Str(TEST_EMAIL)), OrElse(name, Str(TEST_NAME)))
  }

  /** testVerificationEmail: 403, or the template rendered with a fixed link. */
  function TestPage(isDev: bool, secret: Value, email: Value, name: Value): TestResponse {
    if TestForbidden(isDev, secret) then Forbidden
    else Page(VerificationHtml(Display(TestDefaults(email, name).1), TEST_LINK))
  }

  /** Access depends on the secret alone: the emulator flag never grants or refuses it. */
  lemma TestAccessBySecretOnly(isDev: bool, secret: Value, email: Value, name: Value)
    ensures TestPage(isDev, secret, email, name).Page? <==> secret == Str(TEST_SECRET)
    ensures TestPage(isDev, secret, email, name) == TestPage(!isDev, secret, email, name)
  {
  }

  /** Without a name in the query the page greets 'Test User'. */
  lemma TestPageDefaultName(isDev: bool, email: Value, name: Value)
    requires !Truthy(name)
    ensures TestPage(isDev, Str(TEST_SECRET), email, name) == Page(VerificationHtml(TEST_NAME, TEST_LINK))
  {
  }

  // ---------------------------------------------------------------------------
  // Properties of the two senders
  // ---------------------------------------------------------------------------

  /**
   * A sent verification is one pending mail to the account's address, with
   * the verification subject and the name and link in its page, logged as
   * 'verification' with the mail's id.
   */
  lemma SendDelivers(out: Outbox, user: AuthUser, l: string, read: Option<Option<Doc>>, mailId: string)
    requires user.email != Undefined
    ensures var r := Send(out, user, Ok(l), read, mailId);
      && r.0 == Sent(mailId)
      && r.1.mail == out.mail + [MailDoc(mailId, [user.email], VERIFY_SUBJECT, VerificationHtml(UserName(read), l), "pending")]
      && r.1.logs == out.logs + [EmailLog("verification", user.uid, user.email, mailId)]
      && r.1.errors == out.errors
  {
  }

  /** A failed link generation writes no mail and one error record, and answers `success: false`. */
  lemma SendFailureRecorded(out: Outbox, user: AuthUser, f: Failure, read: Option<Option<Doc>>, mailId: string)
    requires user.email != Undefined
    ensures var r := Send(out, user, Err(f), read, mailId);
      && r.0 == NotSent(f.message)
      && r.1.mail == out.mail && r.1.logs == out.logs
      && r.1.errors == out.errors + [EmailError("verification_email", user.uid, user.email, f.message, Some(f.stack))]
  {
  }

  /** A resend logs 'verification_resend'; a failure records an error (when it can) and throws 'internal'. */
  lemma ResendOutcomes(out: Outbox, user: AuthUser, link: Result<string, Failure>, read: Option<Option<Doc>>, mailId: string)
    requires user.email != Undefined
    ensures var r := Resend(out, Some(user), Ok(false), link, read, mailId);
      && (link.Ok? ==>
            && r.0 == Resent(mailId)
            && r.1.mail == out.mail + [MailDoc(mailId, [user.email], RESEND_SUBJECT, VerificationHtml(UserName(read), link.value), "pending")]
            && r.1.logs == out.logs + [EmailLog("verification_resend", user.uid, user.email, mailId)])
      && (link.Err? ==>
            && r.0 == Internal && r.1.mail == out.mail && r.1.logs == out.logs
            && r.1.errors == out.errors + [EmailError("resend_verification_email", user.uid, user.email, link.error.message, None)])
  {
  }

  // ---------------------------------------------------------------------------
  // The handlers, appending to the collections
  // ---------------------------------------------------------------------------

  class MailStore {
    var mail: seq<MailDoc>
    var emailLogs: seq<EmailLog>
    var emailErrors: seq<EmailError>

    constructor ()
      ensures State() == Outbox([], [], [])
    {
      mail := [];
      emailLogs := [];
      emailErrors := [];
    }

    function State(): Outbox
      reads this
    {
      Outbox(mail, emailLogs, emailErrors)
    }

    /** The `users` lookup: the default name is replaced by a truthy stored one. */
    static method LookUpUserName(read: Option<Option<Doc>>) returns (userName: string)
      ensures userName == UserName(read)
    {
      userName := DEFAULT_NAME;
      if read.Some? && read.value.Some? {
        var name := Get(read.value.value, "name");
        if Truthy(name) {
          userName := Display(name);
        }
      }
    }

    method SendMessage(user: AuthUser, subject: string, logType: string, html: string, mailId: string)
      modifies this
      ensures State() == Deliver(old(State()), user, subject, logType, html, mailId)
    {
      mail := mail + [MailDoc(mailId, [user.email], subject, html, "pending")];
      emailLogs := emailLogs + [EmailLog(logType, user.uid, user.email, mailId)];
    }

    method SendCustomVerificationEmail(user: AuthUser, link: Result<string, Failure>,
                                       read: Option<Option<Doc>>, mailId: string)
      returns (result: SendResult)
      modifies this
      ensures (result, State()) == Send(old(State()), user, link, read, mailId)
    {
      if user.email == Undefined {
        return SendRejected;
      }
      if link.Err? {
        emailErrors := emailErrors + [EmailError("verification_email", user.uid, user.email, link.error.message, Some(link.error.stack))];
        return NotSent(link.error.message);
      }
      var userName := LookUpUserName(read);
      SendMessage(user, VERIFY_SUBJECT, "verification", VerificationHtml(userName, link.value), mailId);
      result := Sent(mailId);
    }

    method ResendVerificationEmail(auth: Option<AuthUser>, verified: Result<bool, Failure>,
                                   link: Result<string, Failure>, read: Option<Option<Doc>>, mailId: string)
      returns (result: ResendResult)
      modifies this
      ensures (result, State()) == Resend(old(State()), auth, verified, link, read, mailId)
    {
      if auth.None? {
        return Unauthenticated;
      }
      var user := auth.value;
      if verified.Ok? && verified.value {
        return AlreadyVerified;
      }
      if verified.Err? || link.Err? {
        var f := if verified.Err? then verified.error else link.error;
        if user.email != Undefined {
          emailErrors := emailErrors + [EmailError("resend_verification_email", user.uid, user.email, f.message, None)];
        }
        return Internal;
      }
      if user.email == Undefined {
        return Internal;
      }
      var userName := LookUpUserName(read);
      SendMessage(user, RESEND_SUBJECT, "verification_resend", VerificationHtml(userName, link.value), mailId);
      result := Resent(mailId);
    }
  }
}
