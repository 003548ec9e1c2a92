/**
 * The form schemas: minimum lengths, enum membership and the email / URL formats, each
 * failing rule reporting its own fixed message. The email and URL checks are parameters.
 */
module Schemas {
  
  /** The form fields, one per key of the three schemas (`service_interest` is `ServiceInterest`, ...). */
  datatype Field =
    | Name | Email | Company | ServiceInterest | Message
    | ReferrerType | ReferredCompany | ReferredContact | ServiceType
    | FullName | RoleInterest | CvUrl | CoverNote

  /** One field's rule: whether it holds and what it reports when it does not. */
  datatype Rule = Rule(field: Field, holds: bool, message: string)

  /** A reported problem with one field. */
  datatype FieldError = FieldError(field: Field, message: string)

  /** What a failing rule reports. */
  function ErrorOf(rule: Rule): FieldError {
    FieldError(rule.field, rule.message)
  }

  /** The errors of the failing rules, in field order. */
  function Errors(rules: seq<Rule>): (r: seq<FieldError>)
    ensures r == [] <==> forall i :: 0 <= i < |rules| ==> rules[i].holds
    ensures forall rule :: rule in rules && !rule.holds ==> ErrorOf(rule) in r
    ensures forall e :: e in r ==> exists rule :: rule in rules && !rule.holds && e == ErrorOf(rule)
  {
    if rules == [] then []
    else
      var rest := Errors(rules[1..]);
      assert forall rule :: rule in rules <==> rule == rules[0] || rule in rules[1..];
      assert forall i :: 0 < i < |rules| ==> rules[i] == rules[1..][i - 1];
      if rules[0].holds then rest else [ErrorOf(rules[0])] + rest
  }

  /** No two rules of a schema are about the same field. */
  predicate DistinctFields(rules: seq<Rule>) {
    forall a, b :: 0 <= a < b < |rules| ==> rules[a].field != rules[b].field
  }

  /** With one rule per field, a rule's error is reported exactly when the rule fails. */
  lemma ReportedIffFails(rules: seq<Rule>, i: nat)
    requires DistinctFields(rules)
    requires i < |rules|
    ensures ErrorOf(rules[i]) in Errors(rules) <==> !rules[i].holds
  {
    if ErrorOf(rules[i]) in Errors(rules) {
      var rule :| rule in rules && !rule.holds && ErrorOf(rules[i]) == ErrorOf(rule);
      var j :| 0 <= j < |rules| && rules[j] == rule;
      assert j == i;
    }
  }

  /** `z.string().min(n)`, with a string's length its number of characters. */
  predicate MinLength(s: string, n: nat) {
    |s| >= n
  }

  const NameTooShort := "Name must be at least 2 characters"
  const InvalidEmail := "Please enter a valid email address"
  const CompanyTooShort := "Company name must be at least 2 characters"
  const SelectService := "Please select a service"
  const MessageTooShort := "Message must be at least 10 characters"
  const SelectRelationship := "Please select your relationship"
  const ContactNameTooShort := "Contact name must be at least 2 characters"
  const FullNameTooShort := "Full name must be at least 2 characters"
  const RoleInterestTooShort := "Please specify your role interest"
  const InvalidCvUrl := "Please provide a valid URL to your CV"
  const CoverNoteTooShort := "Cover note must be at least 10 characters"

  const ContactServices: seq<string> := ["data_services", "advisory", "capital", "other"]
  const ReferrerTypes: seq<string> := ["client", "partner", "employee"]
  const ReferralServices: seq<string> := ["data_services", "advisory", "capital"]

  datatype ContactForm = ContactForm(name: string, email: string, company: string, serviceInterest: string, message: string)

  function ContactRules(f: ContactForm, isEmail: string -> bool): seq<Rule> {
    [Rule(Name, MinLength(f.name, 2), NameTooShort),
     Rule(Email, isEmail(f.email), InvalidEmail),
     Rule(Company, MinLength(f.company, 2), CompanyTooShort),
     Rule(ServiceInterest, f.serviceInterest in ContactServices, SelectService),
     Rule(Message, MinLength(f.message, 10), MessageTooShort)]
  }

  /** `contactFormSchema.safeParse(f)`: the errors it reports. */
  function ContactErrors(f: ContactForm, isEmail: string -> bool): seq<FieldError> {
    Errors(ContactRules(f, isEmail))
  }

  /** The contact form passes exactly when every field rule holds, and each failing rule reports its own message. */
  lemma ContactSchemaRules(f: ContactForm, isEmail: string -> bool)
    ensures ContactErrors(f, isEmail) == [] <==>
      |f.name| >= 2 && isEmail(f.email) && |f.company| >= 2 && f.serviceInterest in ContactServices && |f.message| >= 10
    ensures FieldError(Name, NameTooShort) in ContactErrors(f, isEmail) <==> |f.name| < 2
    ensures FieldError(Email, InvalidEmail) in ContactErrors(f, isEmail) <==> !isEmail(f.email)
    ensures FieldError(Company, CompanyTooShort) in ContactErrors(f, isEmail) <==> |f.company| < 2
    ensures FieldError(ServiceInterest, SelectService) in ContactErrors(f, isEmail) <==> f.serviceInterest !in ContactServices
    ensures FieldError(Message, MessageTooShort) in ContactErrors(f, isEmail) <==> |f.message| < 10
  {
    var rules := ContactRules(f, isEmail);
    assert DistinctFields(rules);
    forall i | 0 <= i < |rules| ensures ErrorOf(rules[i]) in Errors(rules) <==> !rules[i].holds {
      ReportedIffFails(rules, i);
    }
    assert ErrorOf(rules[0]) == FieldError(Name, NameTooShort);
    assert ErrorOf(rules[1]) == FieldError(Email, InvalidEmail);
    assert ErrorOf(rules[2]) == FieldError(Company, CompanyTooShort);
    assert ErrorOf(rules[3]) == FieldError(ServiceInterest, SelectService);
    assert ErrorOf(rules[4]) == FieldError(Message, MessageTooShort);
  }

  datatype ReferralForm = ReferralForm(referrerType: string, name: string, email: string,
                                       referredCompany: string, referredContact: string, serviceType: string)

  function ReferralRules(f: ReferralForm, isEmail: string -> bool): seq<Rule> {
    [Rule(ReferrerType, f.referrerType in ReferrerTypes, SelectRelationship),
     Rule(Name, MinLength(f.name, 2), NameTooShort),
     Rule(Email, isEmail(f.email), InvalidEmail),
     Rule(ReferredCompany, MinLength(f.referredCompany, 2), CompanyTooShort),
     Rule(ReferredContact, MinLength(f.referredContact, 2), ContactNameTooShort),
     Rule(ServiceType, f.serviceType in ReferralServices, SelectService)]
  }

  function ReferralErrors(f: ReferralForm, isEmail: string -> bool): seq<FieldError> {
    Errors(ReferralRules(f, isEmail))
  }

  /** The referral form passes exactly when every field rule holds, and each failing rule reports its own message. */
  lemma ReferralSchemaRules(f: ReferralForm, isEmail: string -> bool)
    ensures ReferralErrors(f, isEmail) == [] <==>
      f.referrerType in ReferrerTypes && |f.name| >= 2 && isEmail(f.email) && |f.referredCompany| >= 2 &&
      |f.referredContact| >= 2 && f.serviceType in ReferralServices
    ensures FieldError(ReferrerType, SelectRelationship) in ReferralErrors(f, isEmail) <==> f.referrerType !in ReferrerTypes
    ensures FieldError(Name, NameTooShort) in ReferralErrors(f, isEmail) <==> |f.name| < 2
    ensures FieldError(Email, InvalidEmail) in ReferralErrors(f, isEmail) <==> !isEmail(f.email)
    ensures FieldError(ReferredCompany, CompanyTooShort) in ReferralErrors(f, isEmail) <==> |f.referredCompany| < 2
    ensures FieldError(ReferredContact, ContactNameTooShort) in ReferralErrors(f, isEmail) <==> |f.referredContact| < 2
    ensures FieldError(ServiceType, SelectService) in ReferralErrors(f, isEmail) <==> f.serviceType !in ReferralServices
  {
    var rules := ReferralRules(f, isEmail);
    assert DistinctFields(rules);
    assert rules[0].holds <==> f.referrerType in ReferrerTypes;
    assert rules[5].holds <==> f.serviceType in ReferralServices;
    assert (forall i :: 0 <= i < |rules| ==> rules[i].holds) <==>
      rules[0].holds && rules[1].holds && rules[2].holds && rules[3].holds && rules[4].holds && rules[5].holds;
    forall i | 0 <= i < |rules| ensures ErrorOf(rules[i]) in Errors(rules) <==> !rules[i].holds {
      ReportedIffFails(rules, i);
    }
    assert ErrorOf(rules[0]) == FieldError(ReferrerType, SelectRelationship);
    assert ErrorOf(rules[1]) == FieldError(Name, NameTooShort);
    assert ErrorOf(rules[2]) == FieldError(Email, InvalidEmail);
    assert ErrorOf(rules[3]) == FieldError(ReferredCompany, CompanyTooShort);
    assert ErrorOf(rules[4]) == FieldError(ReferredContact, ContactNameTooShort);
    assert ErrorOf(rules[5]) == FieldError(ServiceType, SelectService);
  }

  /** A service the contact form accepts, `other`, is refused on a referral. */
  lemma ReferralRefusesOther(f: ReferralForm, isEmail: string -> bool)
    requires f.serviceType == "other"
    ensures "other" in ContactServices
    ensures FieldError(ServiceType, SelectService) in ReferralErrors(f, isEmail)
  {
    ReferralSchemaRules(f, isEmail);
  }

  datatype ApplicationForm = ApplicationForm(fullName: string, email: string, roleInterest: string, cvUrl: string, coverNote: string)

  function ApplicationRules(f: ApplicationForm, isEmail: string -> bool, isUrl: string -> bool): seq<Rule> {
    [Rule(FullName, MinLength(f.fullName, 2), FullNameTooShort),
     Rule(Email, isEmail(f.email), InvalidEmail),
     Rule(RoleInterest, MinLength(f.roleInterest, 2), RoleInterestTooShort),
     Rule(CvUrl, isUrl(f.cvUrl), InvalidCvUrl),
     Rule(CoverNote, MinLength(f.coverNote, 10), CoverNoteTooShort)]
  }

  function ApplicationErrors(f: ApplicationForm, isEmail: string -> bool, isUrl: string -> bool): seq<FieldError> {
    Errors(ApplicationRules(f, isEmail, isUrl))
  }

  /** The application form passes exactly when every field rule holds, and each failing rule reports its own message. */
  lemma ApplicationSchemaRules(f: ApplicationForm, isEmail: string -> bool, isUrl: string -> bool)
    ensures ApplicationErrors(f, isEmail, isUrl) == [] <==>
      |f.fullName| >= 2 && isEmail(f.email) && |f.roleInterest| >= 2 && isUrl(f.cvUrl) && |f.coverNote| >= 10
    ensures FieldError(FullName, FullNameTooShort) in ApplicationErrors(f, isEmail, isUrl) <==> |f.fullName| < 2
    ensures FieldError(Email, InvalidEmail) in ApplicationErrors(f, isEmail, isUrl) <==> !isEmail(f.email)
    ensures FieldError(RoleInterest, RoleInterestTooShort) in ApplicationErrors(f, isEmail, isUrl) <==> |f.roleInterest| < 2
    ensures FieldError(CvUrl, InvalidCvUrl) in ApplicationErrors(f, isEmail, isUrl) <==> !isUrl(f.cvUrl)
    ensures FieldError(CoverNote, CoverNoteTooShort) in ApplicationErrors(f, isEmail, isUrl) <==> |f.coverNote| < 10
  {
    var rules := ApplicationRules(f, isEmail, isUrl);
    assert DistinctFields(rules);
    forall i | 0 <= i < |rules| ensures ErrorOf(rules[i]) in Errors(rules) <==> !rules[i].holds {
      ReportedIffFails(rules, i);
    }
    assert ErrorOf(rules[0]) == FieldError(FullName, FullNameTooShort);
    assert ErrorOf(rules[1]) == FieldError(Email, InvalidEmail);
    assert ErrorOf(rules[2]) == FieldError(RoleInterest, RoleInterestTooShort);
    assert ErrorOf(rules[3]) == FieldError(CvUrl, InvalidCvUrl);
    assert ErrorOf(rules[4]) == FieldError(CoverNote, CoverNoteTooShort);
  }
}
