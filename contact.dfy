/** The contact-form relay endpoint (api/contact.ts, handler).

    The handler is a chain of guards with early returns (method, required
    fields, mail credentials), then composes one message, hands it to the mail
    transport and maps the transport's answer to a status code. `Handle` states
    the whole decision as a function of the request, the environment and the
    transport's answer; `Handler` is the imperative handler over a response
    object and a mail transport, proved to do what `Handle` says. */
module Contact {
  import opened Escape

  datatype Option<T> = None | Some(value: T)

  /** JavaScript truthiness of an optional string: present and not empty. */
  predicate Truthy(o: Option<string>)
  {
    o.Some? && o.value != ""
  }

  /** `o || fallback` on an optional string: with a non-empty fallback the
      result is never empty. */
  function Or(o: Option<string>, fallback: string): (r: string)
    ensures fallback != "" ==> r != ""
  {
    if Truthy(o) then o.value else fallback
  }

  /** The four submitted fields; None is a field the JSON body does not have. */
  datatype Fields = Fields(name: Option<string>, email: Option<string>, subject: Option<string>, message: Option<string>)

  /** The parts of the request the handler reads; `body` is None when the request has none. */
  datatype Request = Request(httpMethod: Option<string>, body: Option<Fields>)

  /** GMAIL_USER, GMAIL_PASS, CONTACT_TO and CONTACT_FROM. */
  datatype Env = Env(gmailUser: Option<string>, gmailPass: Option<string>, contactTo: Option<string>, contactFrom: Option<string>)

  /** What the mail transport answers: delivered, or a rejection carrying the transport's error text. */
  datatype SendResult = Delivered | Rejected(detail: string)

  /** The JSON payloads: `{ ok: true }` or `{ error: ... }`. */
  datatype Reply = Ack | Error(error: string)

  /** The message handed to the transport (nodemailer's mail options). */
  datatype Mail = Mail(from: string, to: string, replyTo: string, subject: string, text: string, html: string)

  /** Status code and payload that the handler writes, and the message it handed to the transport, if any. */
  datatype Outcome = Outcome(status: int, reply: Reply, attempted: Option<Mail>)

  const DefaultRecipient: string := "jetfuelcreatives@gmail.com"
  const MethodNotAllowed: string := "Method not allowed"
  const MissingFields: string := "Missing required fields: name, email, message"
  const NotConfigured: string := "Email not configured"
  const SendFailed: string := "Failed to send message"

  /** `req.body || {}`. */
  function FieldsOf(req: Request): Fields
  {
    if req.body.Some? then req.body.value else Fields(None, None, None, None)
  }

  /** The required-field guard passes: name, email and message are all present and non-empty. */
  predicate HasRequiredFields(f: Fields)
  {
    Truthy(f.name) && Truthy(f.email) && Truthy(f.message)
  }

  /** The credentials guard passes: GMAIL_USER and GMAIL_PASS are both set and non-empty. */
  predicate Configured(env: Env)
  {
    Truthy(env.gmailUser) && Truthy(env.gmailPass)
  }

  /** All three guards pass, so a message is composed and sent. */
  predicate Accepted(req: Request, env: Env)
  {
    req.httpMethod == Some("POST") && HasRequiredFields(FieldsOf(req)) && Configured(env)
  }

  /** The subject line: the submitted subject when there is one, else a label naming the sender. */
  function SubjectLine(name: string, subject: Option<string>): string
  {
    if Truthy(subject) then "Website Contact: " + subject.value else "Website Contact from " + name
  }

  /** The plain-text body; the fields are copied as they are. */
  function TextBody(name: string, email: string, message: string): string
  {
    "Name: " + name + "\nEmail: " + email + "\n\nMessage:\n" + message
  }

  /** One labelled HTML paragraph with an escaped value. */
  function Paragraph(caption: string, value: string): string
  {
    "<p><strong>" + caption + ":</strong> " + EscapeHtml(value) + "</p>"
  }

  /** The message paragraph's content: escaped, then every newline turned into `<br/>`. */
  function MessageHtml(message: string): string
  {
    ReplaceAll(EscapeHtml(message), '\n', "<br/>")
  }

  /** The HTML body; the Subject paragraph is there only when a subject was given. */
  function HtmlBody(name: string, email: string, subject: Option<string>, message: string): string
  {
    Paragraph("Name", name) + Paragraph("Email", email)
    + (if Truthy(subject) then Paragraph("Subject", subject.value) else "")
    + "<hr/><p>" + MessageHtml(message) + "</p>"
  }

  /** The mail options built once every guard has passed. */
  function ComposeMail(f: Fields, to: string, from: string): Mail
    requires HasRequiredFields(f)
  {
    Mail(from, to, f.email.value, SubjectLine(f.name.value, f.subject),
         TextBody(f.name.value, f.email.value, f.message.value),
         HtmlBody(f.name.value, f.email.value, f.subject, f.message.value))
  }

  /** The handler's decision: guards in source order, then one send whose answer picks the status. */
  function Handle(req: Request, env: Env, send: SendResult): (o: Outcome)
    // non-POST: 405, nothing read, nothing sent
    ensures req.httpMethod != Some("POST") ==> o == Outcome(405, Error(MethodNotAllowed), None)
    // missing field: 400 and no send, whatever the configuration
    ensures req.httpMethod == Some("POST") && !HasRequiredFields(FieldsOf(req)) ==>
              o == Outcome(400, Error(MissingFields), None)
    // missing credentials: checked after the fields and before any send
    ensures req.httpMethod == Some("POST") && HasRequiredFields(FieldsOf(req)) && !Configured(env) ==>
              o == Outcome(500, Error(NotConfigured), None)
    // exactly one message reaches the transport when, and only when, every guard passes
    ensures o.attempted.Some? <==> Accepted(req, env)
    ensures Accepted(req, env) ==>
              (o.status == 200 <==> send == Delivered) && (o.reply == Ack <==> send == Delivered)
    ensures Accepted(req, env) && send.Rejected? ==> o.status == 500 && o.reply == Error(SendFailed)
    // addressing of the message
    ensures o.attempted.Some? ==>
              && o.attempted.value.replyTo == FieldsOf(req).email.value
              && o.attempted.value.to == (if Truthy(env.contactTo) then env.contactTo.value else DefaultRecipient)
              && o.attempted.value.from == (if Truthy(env.contactFrom) then env.contactFrom.value else env.gmailUser.value)
  {
    if req.httpMethod != Some("POST") then Outcome(405, Error(MethodNotAllowed), None)
    else
      var f := FieldsOf(req);
      if !HasRequiredFields(f) then Outcome(400, Error(MissingFields), None)
      else if !Configured(env) then Outcome(500, Error(NotConfigured), None)
      else
        var mail := ComposeMail(f, Or(env.contactTo, DefaultRecipient), Or(env.contactFrom, env.gmailUser.value));
        match send
        case Delivered => Outcome(200, Ack, Some(mail))
        case Rejected(_) => Outcome(500, Error(SendFailed), Some(mail))
  }

  /** Every outcome is one row of the endpoint's response table. */
  lemma ResponseTable(req: Request, env: Env, send: SendResult)
    ensures var o := Handle(req, env, send);
      (o.status, o.reply) in {(405, Error(MethodNotAllowed)), (400, Error(MissingFields)),
                              (500, Error(NotConfigured)), (500, Error(SendFailed)), (200, Ack)}
  {
  }

  /** The transport's error text never reaches the response: two rejections with different texts give the same outcome. */
  lemma TransportErrorNotLeaked(req: Request, env: Env, d1: string, d2: string)
    ensures Handle(req, env, Rejected(d1)) == Handle(req, env, Rejected(d2))
  {
  }

  /** The method check comes first: for any other method the body, the configuration and the transport play no part. */
  lemma MethodCheckedFirst(r1: Request, r2: Request, e1: Env, e2: Env, s1: SendResult, s2: SendResult)
    requires r1.httpMethod != Some("POST") && r2.httpMethod != Some("POST")
    ensures Handle(r1, e1, s1) == Handle(r2, e2, s2)
  {
  }

  /** Field validation comes before the credentials check: a request missing a field is refused the same way under any configuration. */
  lemma FieldsCheckedBeforeConfiguration(req: Request, e1: Env, e2: Env, s1: SendResult, s2: SendResult)
    requires req.httpMethod == Some("POST") && !HasRequiredFields(FieldsOf(req))
    ensures Handle(req, e1, s1) == Handle(req, e2, s2)
  {
  }

  /** The subject line and the HTML body of a sent message follow the submitted subject. */
  lemma ComposedSubject(req: Request, env: Env, send: SendResult)
    requires Accepted(req, env)
    ensures var m := Handle(req, env, send).attempted.value;
      var f := FieldsOf(req);
      && (Truthy(f.subject) ==> m.subject == "Website Contact: " + f.subject.value)
      && (!Truthy(f.subject) ==> m.subject == "Website Contact from " + f.name.value)
      && m.html == HtmlBody(f.name.value, f.email.value, f.subject, f.message.value)
      && m.text == TextBody(f.name.value, f.email.value, f.message.value)
  {
  }

  /** The plain-text body carries the message as submitted, unescaped, at its end. */
  lemma TextBodyEndsWithMessage(name: string, email: string, message: string)
    ensures var t := TextBody(name, email, message);
      |t| >= |message| && t[|t| - |message|..] == message
  {
  }

  /** The Subject paragraph is the only difference between a body with a subject
      and one without: it sits right after the Email paragraph. */
  lemma SubjectParagraphPlacement(name: string, email: string, subject: Option<string>, message: string)
    ensures var plain := HtmlBody(name, email, None, message);
      var k := |Paragraph("Name", name) + Paragraph("Email", email)|;
      && k <= |plain|
      && (Truthy(subject) ==> HtmlBody(name, email, subject, message) == plain[..k] + Paragraph("Subject", subject.value) + plain[k..])
      && (!Truthy(subject) ==> HtmlBody(name, email, subject, message) == plain)
  {
    var head := Paragraph("Name", name) + Paragraph("Email", email);
    var tail := "<hr/><p>" + MessageHtml(message) + "</p>";
    assert HtmlBody(name, email, None, message) == head + tail;
    assert (head + tail)[..|head|] == head;
    assert (head + tail)[|head|..] == tail;
  }

  // ---- Escaping of the HTML body ----

  /** How the message paragraph renders one character. */
  function MessageChar(c: char): string
  {
    if c == '\n' then "<br/>" else EscapeChar(c)
  }

  /** Reference definition of the message paragraph, one character at a time. */
  function MessageEach(s: string): string
  {
    if s == [] then [] else MessageChar(s[0]) + MessageEach(s[1..])
  }

  lemma NewlineFreeEntities(c: char)
    requires c != '\n'
    ensures '\n' !in EscapeChar(c)
  {
  }

  lemma {:induction false} NewlineOverEscapeEach(s: string)
    ensures ReplaceAll(EscapeEach(s), '\n', "<br/>") == MessageEach(s)
  {
    if s != [] {
      ReplaceAllConcat(EscapeChar(s[0]), EscapeEach(s[1..]), '\n', "<br/>");
      if s[0] == '\n' {
        ReplaceAllSingle(s[0], '\n', "<br/>");
      } else {
        NewlineFreeEntities(s[0]);
        ReplaceAllAbsent(EscapeChar(s[0]), '\n', "<br/>");
      }
      NewlineOverEscapeEach(s[1..]);
    }
  }

  /** Escaping and then turning newlines into `<br/>` is one per-character map:
      each `\n` of the message becomes `<br/>`, each special character its entity. */
  lemma MessageHtmlIsPerCharacter(message: string)
    ensures MessageHtml(message) == MessageEach(message)
  {
    EscapeHtmlIsPerCharacter(message);
    NewlineOverEscapeEach(message);
  }

  /** No raw newline is left in the message paragraph. */
  lemma MessageHtmlHasNoNewline(message: string)
    ensures '\n' !in MessageHtml(message)
  {
    ReplaceAllRemoves(EscapeHtml(message), '\n', "<br/>");
  }

  /** Text without `&` or quote characters is entity-safe. */
  lemma PlainEntitySafe(t: string)
    requires '&' !in t && '"' !in t && '\'' !in t
    ensures EntitySafe(t)
  {
    forall i | 0 <= i < |t| ensures t[i] != '&' {
      assert t[i] in t;
    }
  }

  lemma {:induction false} MessageEachEntitySafe(s: string)
    ensures EntitySafe(MessageEach(s))
  {
    if s != [] {
      if s[0] == '\n' {
        PlainEntitySafe("<br/>");
      } else {
        EscapeCharEscaped(s[0]);
      }
      MessageEachEntitySafe(s[1..]);
      EntitySafeConcat(MessageChar(s[0]), MessageEach(s[1..]));
    }
  }

  lemma ParagraphEntitySafe(caption: string, value: string)
    requires '&' !in caption && '"' !in caption && '\'' !in caption
    ensures EntitySafe(Paragraph(caption, value))
  {
    var open := "<p><strong>" + caption + ":</strong> ";
    var close := "</p>";
    assert '&' !in open && '"' !in open && '\'' !in open;
    PlainEntitySafe(open);
    PlainEntitySafe(close);
    EscapeHtmlEscaped(value);
    EntitySafeConcat(open, EscapeHtml(value));
    EntitySafeConcat(open + EscapeHtml(value), close);
  }

  lemma MessageBlockEntitySafe(message: string)
    ensures EntitySafe("<hr/><p>" + MessageHtml(message) + "</p>")
  {
    MessageHtmlIsPerCharacter(message);
    MessageEachEntitySafe(message);
    PlainEntitySafe("<hr/><p>");
    PlainEntitySafe("</p>");
    EntitySafeConcat("<hr/><p>", MessageHtml(message));
    EntitySafeConcat("<hr/><p>" + MessageHtml(message), "</p>");
  }

  /** Whatever the submitter typed, the HTML body has no quote characters and
      each of its ampersands starts an entity. */
  lemma HtmlBodyEntitySafe(name: string, email: string, subject: Option<string>, message: string)
    ensures EntitySafe(HtmlBody(name, email, subject, message))
  {
    var p1, p2 := Paragraph("Name", name), Paragraph("Email", email);
    var p3 := if Truthy(subject) then Paragraph("Subject", subject.value) else "";
    var p4 := "<hr/><p>" + MessageHtml(message) + "</p>";
    assert HtmlBody(name, email, subject, message) == p1 + p2 + p3 + p4;
    ParagraphEntitySafe("Name", name);
    ParagraphEntitySafe("Email", email);
    if Truthy(subject) {
      ParagraphEntitySafe("Subject", subject.value);
    } else {
      PlainEntitySafe(p3);
    }
    MessageBlockEntitySafe(message);
    EntitySafeConcat(p1, p2);
    EntitySafeConcat(p1 + p2, p3);
    EntitySafeConcat(p1 + p2 + p3, p4);
  }

  /** Number of occurrences of `c` in `s`. */
  function Occurrences(c: char, s: string): nat
  {
    if s == [] then 0 else (if s[0] == c then 1 else 0) + Occurrences(c, s[1..])
  }

  lemma {:induction false} OccurrencesConcat(c: char, a: string, b: string)
    ensures Occurrences(c, a + b) == Occurrences(c, a) + Occurrences(c, b)
  {
    if a == [] {
      assert a + b == b;
    } else {
      assert (a + b)[1..] == a[1..] + b;
      OccurrencesConcat(c, a[1..], b);
    }
  }

  lemma {:induction false} OccurrencesAbsent(c: char, s: string)
    requires c !in s
    ensures Occurrences(c, s) == 0
  {
    if s != [] {
      assert s == [s[0]] + s[1..];
      OccurrencesAbsent(c, s[1..]);
    }
  }

  /** In the message paragraph, every `<` is the start of a `<br/>` written for a newline. */
  lemma {:induction false} MessageEachTags(s: string)
    ensures Occurrences('<', MessageEach(s)) == Occurrences('\n', s)
  {
    if s != [] {
      OccurrencesConcat('<', MessageChar(s[0]), MessageEach(s[1..]));
      if s[0] == '\n' {
        BreakTags();
      } else {
        EscapeCharEscaped(s[0]);
        OccurrencesAbsent('<', EscapeChar(s[0]));
      }
      MessageEachTags(s[1..]);
    }
  }

  // The `<` characters of the fixed markup pieces, one piece at a time.
  lemma ParagraphOpenTags() ensures Occurrences('<', "<p><strong>") == 2 {}
  lemma CaptionCloseTags() ensures Occurrences('<', ":</strong> ") == 1 {}
  lemma ParagraphCloseTags() ensures Occurrences('<', "</p>") == 1 {}
  lemma RuleOpenTags() ensures Occurrences('<', "<hr/><p>") == 2 {}
  lemma BreakTags() ensures Occurrences('<', "<br/>") == 1 {}

  /** A paragraph holds the four `<` of its own markup and none from its value. */
  lemma ParagraphTags(caption: string, value: string)
    requires '<' !in caption
    ensures Occurrences('<', Paragraph(caption, value)) == 4
  {
    var open, colon, close := "<p><strong>", ":</strong> ", "</p>";
    var v := EscapeHtml(value);
    assert Paragraph(caption, value) == open + caption + colon + v + close;
    ParagraphOpenTags();
    CaptionCloseTags();
    ParagraphCloseTags();
    OccurrencesAbsent('<', caption);
    EscapeHtmlEscaped(value);
    OccurrencesAbsent('<', v);
    OccurrencesConcat('<', open, caption);
    OccurrencesConcat('<', open + caption, colon);
    OccurrencesConcat('<', open + caption + colon, v);
    OccurrencesConcat('<', open + caption + colon + v, close);
  }

  /** The closing block holds three `<` of markup and one per newline of the message. */
  lemma MessageBlockTags(message: string)
    ensures Occurrences('<', "<hr/><p>" + MessageHtml(message) + "</p>") == 3 + Occurrences('\n', message)
  {
    var hr, m, close := "<hr/><p>", MessageHtml(message), "</p>";
    RuleOpenTags();
    ParagraphCloseTags();
    MessageHtmlIsPerCharacter(message);
    MessageEachTags(message);
    OccurrencesConcat('<', hr, m);
    OccurrencesConcat('<', hr + m, close);
  }

  /** Every tag of the HTML body comes from its fixed markup or from a `<br/>`
      written for a newline of the message: the number of `<` characters does not
      depend on what was typed into the name, email and subject fields, and a
      typed `<` never reaches the body as a tag. */
  lemma HtmlBodyTags(name: string, email: string, subject: Option<string>, message: string)
    ensures Occurrences('<', HtmlBody(name, email, subject, message))
         == 11 + (if Truthy(subject) then 4 else 0) + Occurrences('\n', message)
  {
    var p1, p2 := Paragraph("Name", name), Paragraph("Email", email);
    var p3 := if Truthy(subject) then Paragraph("Subject", subject.value) else "";
    var p4 := "<hr/><p>" + MessageHtml(message) + "</p>";
    assert HtmlBody(name, email, subject, message) == p1 + p2 + p3 + p4;
    ParagraphTags("Name", name);
    ParagraphTags("Email", email);
    if Truthy(subject) {
      ParagraphTags("Subject", subject.value);
    }
    MessageBlockTags(message);
    OccurrencesConcat('<', p1, p2);
    OccurrencesConcat('<', p1 + p2, p3);
    OccurrencesConcat('<', p1 + p2 + p3, p4);
  }

  // ---- The imperative handler ----

  /** The response object: the status code and JSON payload the handler writes. */
  class Response {
    var statusCode: int
    var payload: Option<Reply>

    constructor ()
      ensures statusCode == 200 && payload == None
    {
      statusCode := 200;
      payload := None;
    }

    /** `res.status(code)` */
    method Status(code: int)
      modifies this
      ensures statusCode == code && payload == old(payload)
    {
      statusCode := code;
    }

    /** `.json(reply)` */
    method Json(reply: Reply)
      modifies this
      ensures payload == Some(reply) && statusCode == old(statusCode)
    {
      payload := Some(reply);
    }
  }

  /** The mail transport: it records every message handed to it; `next` is what
      the remote service answers (delivery, or a rejection with its error text). */
  class Mailer {
    var outbox: seq<Mail>
    var next: SendResult

    constructor (answer: SendResult)
      ensures outbox == [] && next == answer
    {
      outbox := [];
      next := answer;
    }

    /** `transporter.sendMail(mail)`: a rejection is the promise rejecting. */
    method SendMail(mail: Mail) returns (r: SendResult)
      modifies this
      ensures outbox == old(outbox) + [mail] && next == old(next) && r == next
    {
      outbox := outbox + [mail];
      r := next;
    }
  }

  /** The messages an outcome hands to the transport. */
  function Attempts(o: Outcome): seq<Mail>
  {
    if o.attempted.Some? then [o.attempted.value] else []
  }

  /** The request handler: guards with early returns, one send, status from its answer. */
  method Handler(req: Request, env: Env, mailer: Mailer, res: Response)
    modifies mailer, res
    ensures var o := Handle(req, env, old(mailer.next));
      && res.statusCode == o.status && res.payload == Some(o.reply)
      && mailer.outbox == old(mailer.outbox) + Attempts(o)
      && mailer.next == old(mailer.next)
  {
    if req.httpMethod != Some("POST") {
      res.Status(405);
      res.Json(Error(MethodNotAllowed));
      return;
    }

    var f := FieldsOf(req);
    if !Truthy(f.name) || !Truthy(f.email) || !Truthy(f.message) {
      res.Status(400);
      res.Json(Error(MissingFields));
      return;
    }

    var user, pass := env.gmailUser, env.gmailPass;
    var to := Or(env.contactTo, DefaultRecipient);
    if !Truthy(user) || !Truthy(pass) {
      res.Status(500);
      res.Json(Error(NotConfigured));
      return;
    }
    var from := Or(env.contactFrom, user.value);

    var mail := ComposeMail(f, to, from);
    var r := mailer.SendMail(mail);
    if r.Delivered? {
      res.Status(200);
      res.Json(Ack);
    } else {
      res.Status(500);
      res.Json(Error(SendFailed));
    }
  }
}
