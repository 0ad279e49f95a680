/**
 * The contact form: four text fields checked by a schema (each trimmed, then
 * length-bounded; the e-mail must also look like an address), the per-field
 * error messages built from the schema's issues, and the message composed
 * from a valid form.
 */
module Contact {
  import opened Wrappers
  import opened JsString

  /** The form's inputs, by their `name` attribute; the error map is keyed by these names. */
  datatype FieldName = Name | Email | Phone | Message

  datatype Form = Form(name: string, email: string, phone: string, message: string)

  const EmptyForm: Form := Form("", "", "", "")

  function Get(form: Form, f: FieldName): string {
    match f
    case Name => form.name
    case Email => form.email
    case Phone => form.phone
    case Message => form.message
  }

  /** `{ ...formData, [name]: value }`. */
  function With(form: Form, f: FieldName, value: string): (r: Form)
    ensures Get(r, f) == value
    ensures forall g :: g != f ==> Get(r, g) == Get(form, g)
  {
    match f
    case Name => form.(name := value)
    case Email => form.(email := value)
    case Phone => form.(phone := value)
    case Message => form.(message := value)
  }

  /** One check of the schema: a bound on the trimmed value's length, or the e-mail format. */
  datatype Rule = MinLength(min: nat) | MaxLength(max: nat) | EmailFormat

  /** A check with the message reported when it fails. */
  datatype Check = Check(rule: Rule, message: string)

  const NameRequired: string := "Name is required"
  const NameTooLong: string := "Name must be less than 100 characters"
  const EmailInvalid: string := "Invalid email address"
  const EmailTooLong: string := "Email must be less than 255 characters"
  const PhoneTooLong: string := "Phone must be less than 20 characters"
  const MessageRequired: string := "Message is required"
  const MessageTooLong: string := "Message must be less than 1000 characters"

  /** The checks the schema runs on each field, in order, after trimming it. */
  function Schema(f: FieldName): seq<Check> {
    match f
    case Name => [Check(MinLength(1), NameRequired), Check(MaxLength(100), NameTooLong)]
    case Email => [Check(EmailFormat, EmailInvalid), Check(MaxLength(255), EmailTooLong)]
    case Phone => [Check(MaxLength(20), PhoneTooLong)]
    case Message => [Check(MinLength(1), MessageRequired), Check(MaxLength(1000), MessageTooLong)]
  }

  /** Whether the trimmed value `t` passes one rule; the e-mail format test is a parameter. */
  predicate Passes(rule: Rule, t: string, isEmail: string -> bool) {
    match rule
    case MinLength(min) => |t| >= min
    case MaxLength(max) => |t| <= max
    case EmailFormat => isEmail(t)
  }

  /** One schema failure: the field it concerns and its message. */
  datatype Issue = Issue(field: FieldName, message: string)

  /** The issues `checks` raise on field `f`'s trimmed value `t`: one per failing check, in order. */
  function CheckIssues(f: FieldName, t: string, checks: seq<Check>, isEmail: string -> bool): (r: seq<Issue>)
    ensures forall i :: 0 <= i < |r| ==> r[i].field == f
  {
    if checks == [] then []
    else
      var c := checks[|checks| - 1];
      CheckIssues(f, t, checks[..|checks| - 1], isEmail) + (if Passes(c.rule, t, isEmail) then [] else [Issue(f, c.message)])
  }

  /** The checks raise no issue exactly when the value passes every one of them. */
  lemma {:induction false} CheckIssuesEmptyIff(f: FieldName, t: string, checks: seq<Check>, isEmail: string -> bool)
    ensures CheckIssues(f, t, checks, isEmail) == [] <==>
      forall i :: 0 <= i < |checks| ==> Passes(checks[i].rule, t, isEmail)
  {
    if checks != [] {
      var init := checks[..|checks| - 1];
      CheckIssuesEmptyIff(f, t, init, isEmail);
      assert forall i :: 0 <= i < |init| ==> init[i] == checks[i];
    }
  }

  /** The issues one field raises for its trimmed value `t`. */
  function FieldIssues(f: FieldName, t: string, isEmail: string -> bool): (r: seq<Issue>)
    ensures forall i :: 0 <= i < |r| ==> r[i].field == f
  {
    CheckIssues(f, t, Schema(f), isEmail)
  }

  /** The field's trimmed value passes every check the schema has for it. */
  predicate Satisfies(f: FieldName, t: string, isEmail: string -> bool) {
    forall i :: 0 <= i < |Schema(f)| ==> Passes(Schema(f)[i].rule, t, isEmail)
  }

  /** A field raises an issue exactly when it breaks one of its checks. */
  lemma FieldIssuesIff(f: FieldName, t: string, isEmail: string -> bool)
    ensures FieldIssues(f, t, isEmail) == [] <==> Satisfies(f, t, isEmail)
  {
    CheckIssuesEmptyIff(f, t, Schema(f), isEmail);
  }

  /** The constraints the schema puts on each trimmed field, as bounds. */
  lemma SatisfiesBounds(t: string, isEmail: string -> bool)
    ensures Satisfies(Name, t, isEmail) <==> 1 <= |t| <= 100
    ensures Satisfies(Email, t, isEmail) <==> isEmail(t) && |t| <= 255
    ensures Satisfies(Phone, t, isEmail) <==> |t| <= 20
    ensures Satisfies(Message, t, isEmail) <==> 1 <= |t| <= 1000
  {
    assert Schema(Name)[0].rule == MinLength(1) && Schema(Name)[1].rule == MaxLength(100);
    assert Schema(Email)[0].rule == EmailFormat && Schema(Email)[1].rule == MaxLength(255);
    assert Schema(Phone)[0].rule == MaxLength(20);
    assert Schema(Message)[0].rule == MinLength(1) && Schema(Message)[1].rule == MaxLength(1000);
  }

  /** The schema trims every field before checking it. */
  function TrimForm(form: Form): Form {
    Form(Trim(form.name), Trim(form.email), Trim(form.phone), Trim(form.message))
  }

  /** The fields of the schema, in the order it checks them. */
  const AllFields: seq<FieldName> := [Name, Email, Phone, Message]

  /** The issues of a trimmed form's `fields`, field by field, each field's issues in check order. */
  function Issues(t: Form, fields: seq<FieldName>, isEmail: string -> bool): seq<Issue> {
    if fields == [] then []
    else
      var f := fields[|fields| - 1];
      Issues(t, fields[..|fields| - 1], isEmail) + FieldIssues(f, Get(t, f), isEmail)
  }

  /** The whole schema's issues: the name's, then the e-mail's, the phone's and the message's. */
  lemma IssuesOfAll(t: Form, isEmail: string -> bool)
    ensures Issues(t, AllFields, isEmail) ==
      FieldIssues(Name, t.name, isEmail) + FieldIssues(Email, t.email, isEmail)
        + FieldIssues(Phone, t.phone, isEmail) + FieldIssues(Message, t.message, isEmail)
  {
    var n := FieldIssues(Name, t.name, isEmail);
    var e := FieldIssues(Email, t.email, isEmail);
    var p := FieldIssues(Phone, t.phone, isEmail);
    var m := FieldIssues(Message, t.message, isEmail);
    assert [Name][..0] == [];
    assert Issues(t, [Name], isEmail) == n;
    assert [Name, Email][..1] == [Name];
    assert Issues(t, [Name, Email], isEmail) == n + e;
    assert [Name, Email, Phone][..2] == [Name, Email];
    assert Issues(t, [Name, Email, Phone], isEmail) == n + e + p;
    assert AllFields[..3] == [Name, Email, Phone];
  }

  /** Every field of a trimmed form meets its constraint. */
  predicate FormSatisfies(t: Form, isEmail: string -> bool) {
    Satisfies(Name, t.name, isEmail) && Satisfies(Email, t.email, isEmail)
      && Satisfies(Phone, t.phone, isEmail) && Satisfies(Message, t.message, isEmail)
  }

  /** The form raises no issue exactly when each of its trimmed fields meets its constraint. */
  lemma IssuesEmptyIff(t: Form, isEmail: string -> bool)
    ensures Issues(t, AllFields, isEmail) == [] <==> FormSatisfies(t, isEmail)
  {
    var n := FieldIssues(Name, t.name, isEmail);
    var e := FieldIssues(Email, t.email, isEmail);
    var p := FieldIssues(Phone, t.phone, isEmail);
    var m := FieldIssues(Message, t.message, isEmail);
    IssuesOfAll(t, isEmail);
    assert |n + e + p + m| == |n| + |e| + |p| + |m|;
    FieldIssuesIff(Name, t.name, isEmail);
    FieldIssuesIff(Email, t.email, isEmail);
    FieldIssuesIff(Phone, t.phone, isEmail);
    FieldIssuesIff(Message, t.message, isEmail);
  }

  /** `contactFormSchema.parse`: the trimmed form when every constraint holds, otherwise every issue found. */
  function Validate(form: Form, isEmail: string -> bool): (r: Result<Form, seq<Issue>>)
    ensures r.Ok? <==> FormSatisfies(TrimForm(form), isEmail)
    ensures r.Ok? ==> r.value == TrimForm(form)
    ensures r.Err? ==> r.error == Issues(TrimForm(form), AllFields, isEmail) && r.error != []
  {
    var t := TrimForm(form);
    var issues := Issues(t, AllFields, isEmail);
    IssuesEmptyIff(t, isEmail);
    if issues == [] then Ok(t) else Err(issues)
  }

  /** A form passes the schema exactly when its trimmed fields are within bounds and the e-mail looks like an address. */
  lemma ValidIffBounds(form: Form, isEmail: string -> bool)
    ensures var t := TrimForm(form);
      Validate(form, isEmail).Ok? <==>
        1 <= |t.name| <= 100 && isEmail(t.email) && |t.email| <= 255 && |t.phone| <= 20 && 1 <= |t.message| <= 1000
  {
    var t := TrimForm(form);
    SatisfiesBounds(t.name, isEmail);
    SatisfiesBounds(t.email, isEmail);
    SatisfiesBounds(t.phone, isEmail);
    SatisfiesBounds(t.message, isEmail);
  }

  /**
   * The error map the submit handler builds: issues in order, each writing
   * its message under its field's name, so the last one for a field wins.
   * (The handler skips an issue with an empty path; every issue here names a field.)
   */
  function FieldErrors(issues: seq<Issue>): (errors: map<FieldName, string>)
  {
    if issues == [] then map[]
    else
      var last := issues[|issues| - 1];
      FieldErrors(issues[..|issues| - 1])[last.field := last.message]
  }

  /** No later issue concerns the same field as `issues[j]`. */
  predicate LastForField(issues: seq<Issue>, j: int)
    requires 0 <= j < |issues|
  {
    forall l :: j < l < |issues| ==> issues[l].field != issues[j].field
  }

  /** The map has one entry per field with an issue, holding the message of that field's last issue. */
  lemma {:induction false} FieldErrorsLastWins(issues: seq<Issue>)
    ensures forall k :: k in FieldErrors(issues) ==> exists j :: 0 <= j < |issues| && issues[j].field == k
    ensures forall j :: 0 <= j < |issues| ==> issues[j].field in FieldErrors(issues)
    ensures forall j :: 0 <= j < |issues| && LastForField(issues, j) ==>
      FieldErrors(issues)[issues[j].field] == issues[j].message
  {
    if issues != [] {
      var init := issues[..|issues| - 1];
      var last := issues[|issues| - 1];
      FieldErrorsLastWins(init);
      forall k | k in FieldErrors(issues) ensures exists j :: 0 <= j < |issues| && issues[j].field == k {
        if k in FieldErrors(init) {
          var j :| 0 <= j < |init| && init[j].field == k;
          assert issues[j] == init[j];
        } else {
          assert issues[|issues| - 1].field == k;
        }
      }
      forall j | 0 <= j < |issues| ensures issues[j].field in FieldErrors(issues) {
        if j < |init| { assert issues[j] == init[j]; }
      }
      forall j | 0 <= j < |issues| && LastForField(issues, j)
        ensures FieldErrors(issues)[issues[j].field] == issues[j].message
      {
        if j < |init| {
          assert issues[j] == init[j];
          assert LastForField(init, j);
        }
      }
    }
  }

  /** The loop that fills the error map, issue by issue. */
  method BuildFieldErrors(issues: seq<Issue>) returns (fieldErrors: map<FieldName, string>)
    ensures fieldErrors == FieldErrors(issues)
  {
    fieldErrors := map[];
    for i := 0 to |issues|
      invariant fieldErrors == FieldErrors(issues[..i])
    {
      assert issues[..i + 1][..i] == issues[..i];
      fieldErrors := fieldErrors[issues[i].field := issues[i].message];
    }
    assert issues[..|issues|] == issues;
  }

  /** The message a field shows after a failed submit: the last issue it raised. */
  function LastMessage(issues: seq<Issue>): string
    requires issues != []
  {
    issues[|issues| - 1].message
  }

  /** The issues of field `f` among the four fields' issue lists. */
  function Own(f: FieldName, n: seq<Issue>, e: seq<Issue>, p: seq<Issue>, m: seq<Issue>): seq<Issue> {
    match f
    case Name => n
    case Email => e
    case Phone => p
    case Message => m
  }

  /** Where field `f`'s issues start in the four lists laid end to end. */
  function Start(f: FieldName, n: seq<Issue>, e: seq<Issue>, p: seq<Issue>): nat {
    match f
    case Name => 0
    case Email => |n|
    case Phone => |n| + |e|
    case Message => |n| + |e| + |p|
  }

  /** In the four lists laid end to end, field `f`'s issues are exactly its own list's block. */
  lemma OwnBlock(n: seq<Issue>, e: seq<Issue>, p: seq<Issue>, m: seq<Issue>, f: FieldName)
    requires forall i :: 0 <= i < |n| ==> n[i].field == Name
    requires forall i :: 0 <= i < |e| ==> e[i].field == Email
    requires forall i :: 0 <= i < |p| ==> p[i].field == Phone
    requires forall i :: 0 <= i < |m| ==> m[i].field == Message
    ensures var all := n + e + p + m; var lo := Start(f, n, e, p); var own := Own(f, n, e, p, m);
      && lo + |own| <= |all|
      && (forall i :: 0 <= i < |own| ==> all[lo + i] == own[i])
      && (forall i :: 0 <= i < |all| ==> (all[i].field == f <==> lo <= i < lo + |own|))
  {
  }

  /**
   * Merging the four fields' issues in order: a field has an entry exactly
   * when it has issues, and the entry is its last issue's message.
   */
  lemma MergedErrors(n: seq<Issue>, e: seq<Issue>, p: seq<Issue>, m: seq<Issue>, f: FieldName)
    requires forall i :: 0 <= i < |n| ==> n[i].field == Name
    requires forall i :: 0 <= i < |e| ==> e[i].field == Email
    requires forall i :: 0 <= i < |p| ==> p[i].field == Phone
    requires forall i :: 0 <= i < |m| ==> m[i].field == Message
    ensures f in FieldErrors(n + e + p + m) <==> Own(f, n, e, p, m) != []
    ensures Own(f, n, e, p, m) != [] ==> FieldErrors(n + e + p + m)[f] == LastMessage(Own(f, n, e, p, m))
  {
    var all := n + e + p + m;
    var lo := Start(f, n, e, p);
    var own := Own(f, n, e, p, m);
    OwnBlock(n, e, p, m, f);
    FieldErrorsLastWins(all);
    if own != [] {
      var j := lo + |own| - 1;
      assert all[j] == own[|own| - 1];
      assert LastForField(all, j);
    }
  }

  /**
   * After a failed submit, a field shows an error exactly when it breaks its
   * constraint, and the message shown is the last of its issues.
   */
  lemma ErrorShown(t: Form, isEmail: string -> bool, f: FieldName)
    ensures f in FieldErrors(Issues(t, AllFields, isEmail)) <==> !Satisfies(f, Get(t, f), isEmail)
    ensures var mine := FieldIssues(f, Get(t, f), isEmail);
      mine != [] ==>
        f in FieldErrors(Issues(t, AllFields, isEmail)) && FieldErrors(Issues(t, AllFields, isEmail))[f] == LastMessage(mine)
  {
    IssuesOfAll(t, isEmail);
    var n := FieldIssues(Name, t.name, isEmail);
    var e := FieldIssues(Email, t.email, isEmail);
    var p := FieldIssues(Phone, t.phone, isEmail);
    var m := FieldIssues(Message, t.message, isEmail);
    MergedErrors(n, e, p, m, f);
    assert Own(f, n, e, p, m) == FieldIssues(f, Get(t, f), isEmail);
    FieldIssuesIff(f, Get(t, f), isEmail);
  }

  /** When the e-mail is both malformed and too long, the length message is the one shown. */
  lemma EmailLengthMessageWins(t: Form, isEmail: string -> bool)
    requires !isEmail(t.email) && |t.email| > 255
    ensures Email in FieldErrors(Issues(t, AllFields, isEmail))
    ensures FieldErrors(Issues(t, AllFields, isEmail))[Email] == EmailTooLong
  {
    ErrorShown(t, isEmail, Email);
    var checks := Schema(Email);
    assert checks[..1][..0] == [] && checks[..1] == [checks[0]];
    assert CheckIssues(Email, t.email, checks[..1], isEmail) == [Issue(Email, EmailInvalid)];
    assert CheckIssues(Email, t.email, checks, isEmail) == [Issue(Email, EmailInvalid), Issue(Email, EmailTooLong)];
  }

  /** The mail the submit handler opens, before its parts are URL-encoded. */
  datatype Mail = Mail(to: string, subject: string, body: string)

  const Recipient: string := "malikzeeshan3.1417@gmail.com"

  /** `validatedData.phone || "N/A"`. */
  function PhoneOrNA(phone: string): (s: string)
    ensures phone == [] ==> s == "N/A"
    ensures phone != [] ==> s == phone
  {
    if phone == [] then "N/A" else phone
  }

  /**
   * The mail sent for validated data: to the site owner, with a subject that
   * names the sender, and a body that starts with the sender's name and ends
   * with the message as typed.
   */
  function ComposeMail(valid: Form): (m: Mail)
    ensures m.to == Recipient
    ensures m.subject == "Contact from " + valid.name
    ensures |"Name: " + valid.name| <= |m.body| && m.body[..|"Name: " + valid.name|] == "Name: " + valid.name
    ensures |valid.message| <= |m.body| && m.body[|m.body| - |valid.message|..] == valid.message
  {
    Mail(Recipient, "Contact from " + valid.name,
         "Name: " + valid.name + "\nEmail: " + valid.email + "\nPhone: " + PhoneOrNA(valid.phone)
           + "\n\nMessage:\n" + valid.message)
  }

  /** A phone number left blank is written into the mail as though "N/A" had been typed. */
  lemma BlankPhoneIsNA(form: Form)
    requires IsBlank(form.phone)
    ensures ComposeMail(TrimForm(form)) == ComposeMail(TrimForm(form).(phone := "N/A"))
  {
    assert TrimForm(form).phone == [];
  }

  /** The form component's state. */
  class ContactForm {
    var formData: Form
    var errors: map<FieldName, string>
    var isSubmitting: bool

    constructor()
      ensures formData == EmptyForm && errors == map[] && !isSubmitting
    {
      formData := EmptyForm;
      errors := map[];
      isSubmitting := false;
    }

    /** Typing into one field: its value is replaced, and its error, if one is shown, is cleared. */
    method HandleChange(f: FieldName, value: string)
      modifies this
      ensures formData == With(old(formData), f, value)
      ensures f in old(errors) && old(errors)[f] != "" ==> errors == old(errors)[f := ""]
      ensures !(f in old(errors) && old(errors)[f] != "") ==> errors == old(errors)
      ensures isSubmitting == old(isSubmitting)
    {
      formData := With(formData, f, value);
      if f in errors && errors[f] != "" {
        errors := errors[f := ""];
      }
    }

    /**
     * Submit: a valid form yields the mail to open and is reset; an invalid
     * one keeps its values and shows the error map. Either way the form is
     * no longer submitting.
     */
    method HandleSubmit(isEmail: string -> bool) returns (mail: Option<Mail>)
      modifies this
      ensures var result := Validate(old(formData), isEmail);
        && (mail.Some? <==> result.Ok?)
        && (result.Ok? ==> mail.value == ComposeMail(result.value) && formData == EmptyForm && errors == map[])
        && (result.Err? ==> formData == old(formData) && errors == FieldErrors(result.error))
      ensures !isSubmitting
    {
      errors := map[];
      isSubmitting := true;
      mail := Finish(Validate(formData, isEmail));
    }

    /** What follows the schema check: the form reset and the mail returned, or the errors shown. */
    method Finish(result: Result<Form, seq<Issue>>) returns (mail: Option<Mail>)
      modifies this
      ensures mail.Some? <==> result.Ok?
      ensures result.Ok? ==> mail.value == ComposeMail(result.value) && formData == EmptyForm && errors == old(errors)
      ensures result.Err? ==> formData == old(formData) && errors == FieldErrors(result.error)
      ensures !isSubmitting
    {
      if result.Ok? {
        mail := Some(ComposeMail(result.value));
        formData := EmptyForm;
      } else {
        mail := None;
        errors := BuildFieldErrors(result.error);
      }
      isSubmitting := false;
    }
  }
}
