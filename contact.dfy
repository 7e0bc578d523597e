/**
 * The contact form handler api/contact.js: each field is read through its
 * alias chain, three fields are required, and the message is mailed to
 * the laboratory.  Sending the mail is foreign: whether it succeeds is an
 * input.
 */
module Contact {
  import opened Js
  import opened Http

  /** `body[k0] || body[k1] || … || fallback` */
  function FirstTruthy(body: Value, keys: seq<string>, fallback: Value): Value
    decreases |keys|
  {
    if keys == [] then fallback
    else if Truthy(Prop(body, keys[0])) then Prop(body, keys[0])
    else FirstTruthy(body, keys[1..], fallback)
  }

  /** The chain yields the fallback when no alias is truthy, and otherwise
      the value of the first truthy alias. */
  lemma {:induction false} FirstTruthySpec(body: Value, keys: seq<string>, fallback: Value)
    ensures (forall i :: 0 <= i < |keys| ==> !Truthy(Prop(body, keys[i]))) ==> FirstTruthy(body, keys, fallback) == fallback
    ensures (exists i :: 0 <= i < |keys| && Truthy(Prop(body, keys[i]))) ==>
              exists i :: (&& 0 <= i < |keys| && FirstTruthy(body, keys, fallback) == Prop(body, keys[i])
                           && Truthy(Prop(body, keys[i]))
                           && forall j :: 0 <= j < i ==> !Truthy(Prop(body, keys[j])))
    decreases |keys|
  {
    if keys != [] && !Truthy(Prop(body, keys[0])) {
      FirstTruthySpec(body, keys[1..], fallback);
      assert forall i :: 0 < i < |keys| ==> keys[i] == keys[1..][i - 1];
      if exists i :: 0 <= i < |keys| && Truthy(Prop(body, keys[i])) {
        var i :| 0 <= i < |keys| && Truthy(Prop(body, keys[i]));
        assert Truthy(Prop(body, keys[1..][i - 1]));
        var k :| (&& 0 <= k < |keys[1..]| && FirstTruthy(body, keys[1..], fallback) == Prop(body, keys[1..][k])
                  && Truthy(Prop(body, keys[1..][k]))
                  && forall j :: 0 <= j < k ==> !Truthy(Prop(body, keys[1..][j])));
        assert keys[k + 1] == keys[1..][k];
        assert forall j :: 0 <= j < k + 1 ==> !Truthy(Prop(body, keys[j])) by {
          forall j | 0 <= j < k + 1
            ensures !Truthy(Prop(body, keys[j]))
          {
            if j > 0 {
              assert keys[j] == keys[1..][j - 1];
            }
          }
        }
      }
    }
  }

  /** The fields after alias resolution. */
  datatype ContactFields = ContactFields(firstName: Value, lastName: Value, email: Value, phone: Value, subject: Value, message: Value)

  function Resolve(body: Value): ContactFields {
    ContactFields(
      FirstTruthy(body, ["First Name", "firstName", "first_name"], Str("")),
      FirstTruthy(body, ["Last Name", "lastName", "last_name"], Str("")),
      FirstTruthy(body, ["Email", "email"], Str("")),
      FirstTruthy(body, ["Phone", "phone"], Str("")),
      FirstTruthy(body, ["Subject", "subject"], Str("Contact Form Inquiry")),
      FirstTruthy(body, ["Message", "message"], Str("")))
  }

  predicate HasRequired(f: ContactFields) {
    Truthy(f.firstName) && Truthy(f.email) && Truthy(f.message)
  }

  /** The mail the handler hands to the transport. */
  datatype Mail = Mail(to: string, replyTo: Value, subject: string)

  function MailFor(f: ContactFields): Mail {
    Mail("info@hfocusmedical.com", f.email, "New Contact Message: " + ToStr(f.subject))
  }

  datatype ContactAnswer = ContactAnswer(reply: Reply, mail: Option<Mail>)

  /** The whole handler.  `body` is the request body after parsing, or
      `TypeError` when `JSON.parse` throws; `mailSent` says whether the
      transport accepted the mail. */
  function HandleContact(verb: string, body: Eval<Value>, mailSent: bool): (r: ContactAnswer)
    ensures verb == "OPTIONS" ==> r == ContactAnswer(Empty(200), None)
    ensures verb != "OPTIONS" && verb != "POST" ==> r == ContactAnswer(MethodNotAllowed(), None)
    ensures verb == "POST" && body.Ok? && !Nullish(body.value) && !HasRequired(Resolve(body.value)) ==>
              r == ContactAnswer(Json(400, 0, "Please fill required fields"), None)
    ensures r.mail.Some? ==> verb == "POST" && body.Ok? && !Nullish(body.value) && HasRequired(Resolve(body.value))
                             && r.mail.value == MailFor(Resolve(body.value))
    ensures r.reply == Json(200, 1, "Message sent successfully") <==> r.mail.Some? && mailSent
    ensures verb == "POST" && (body.TypeError? || Nullish(body.value)) ==>
              r == ContactAnswer(Json(500, 0, "Error sending message"), None)
    ensures verb == "POST" && body.Ok? && !Nullish(body.value) && HasRequired(Resolve(body.value)) ==>
              && r.mail == Some(MailFor(Resolve(body.value)))
              && r.reply == (if mailSent then Json(200, 1, "Message sent successfully") else Json(500, 0, "Error sending message"))
  {
    match Gate(verb, {"POST"})
    case Some(reply) => ContactAnswer(reply, None)
    case None =>
      if body.TypeError? || Nullish(body.value) then ContactAnswer(Json(500, 0, "Error sending message"), None)
      else
        var f := Resolve(body.value);
        if !HasRequired(f) then ContactAnswer(Json(400, 0, "Please fill required fields"), None)
        else if mailSent then ContactAnswer(Json(200, 1, "Message sent successfully"), Some(MailFor(f)))
        else ContactAnswer(Json(500, 0, "Error sending message"), Some(MailFor(f)))
  }

  /** Without any subject alias the mail subject is the default one. */
  lemma DefaultSubject(body: Value)
    requires !Truthy(Prop(body, "Subject")) && !Truthy(Prop(body, "subject"))
    ensures Resolve(body).subject == Str("Contact Form Inquiry")
    ensures MailFor(Resolve(body)).subject == "New Contact Message: " + "Contact Form Inquiry"
  {
    var keys := ["Subject", "subject"];
    assert keys[1..] == ["subject"] && keys[1..][1..] == [];
  }

  /** The capitalised alias wins over the lower-case one. */
  lemma CapitalisedAliasWins(body: Value)
    requires Truthy(Prop(body, "Email"))
    ensures Resolve(body).email == Prop(body, "Email")
  {
  }

  /** Last name and phone are optional: a body with only the three
      required fields passes validation. */
  lemma OptionalFields(first: string, email: string, message: string)
    requires first != "" && email != "" && message != ""
    ensures var body := Obj(map["firstName" := Str(first), "email" := Str(email), "message" := Str(message)]);
            && HasRequired(Resolve(body))
            && Resolve(body).lastName == Str("") && Resolve(body).phone == Str("")
  {
    var body := Obj(map["firstName" := Str(first), "email" := Str(email), "message" := Str(message)]);
    assert Prop(body, "First Name") == Undefined && Prop(body, "firstName") == Str(first);
    assert Prop(body, "Email") == Undefined && Prop(body, "Message") == Undefined;
    assert Prop(body, "Last Name") == Undefined && Prop(body, "lastName") == Undefined && Prop(body, "last_name") == Undefined;
    assert Prop(body, "Phone") == Undefined && Prop(body, "phone") == Undefined;
  }
}
