/**
 * The public intake writes: a lead from the contact form, a referral and a job application.
 * Each is one insert returning the stored row; the store assigns `id` and `created_at`,
 * passed in here, and an insert error is thrown to the caller.
 */
module Intake {
  import opened Common
  import opened Rows

  /** What the caller passes to `createLead`: a lead without `id` and `created_at`. */
  datatype LeadInput = LeadInput(name: string, email: string, company: string, serviceInterest: string, message: string)

  /**
   * What the caller passes to `createReferral`. The declared type leaves out `status` and
   * `eligible`, but an object spread copies whatever the caller's object holds, so they may be present.
   */
  datatype ReferralInput = ReferralInput(referrerType: string, name: string, email: string,
                                         referredCompany: string, referredContact: string, serviceType: string,
                                         discountCode: Option<string>, payoutAmountNad: Option<int>,
                                         linkedProjectId: Option<string>,
                                         status: Option<ReferralStatus>, eligible: Option<bool>)

  /** What the caller passes to `createApplication`; `status` as for referrals. */
  datatype ApplicationInput = ApplicationInput(fullName: string, email: string, roleInterest: string, cvUrl: string,
                                               coverNote: string, status: Option<ApplicationStatus>)

  /** The caller's fields of a stored lead. */
  function LeadFields(l: Lead): LeadInput {
    LeadInput(l.name, l.email, l.company, l.serviceInterest, l.message)
  }

  /** The caller's fields of a stored referral, without the two the insert decides. */
  function ReferralFields(r: Referral): ReferralInput {
    ReferralInput(r.referrerType, r.name, r.email, r.referredCompany, r.referredContact, r.serviceType,
                  r.discountCode, r.payoutAmountNad, r.linkedProjectId, None, None)
  }

  function ApplicationFields(a: Application): ApplicationInput {
    ApplicationInput(a.fullName, a.email, a.roleInterest, a.cvUrl, a.coverNote, None)
  }

  const InsertError := "insert failed"

  /** `dbOperations.createLead`: the lead is stored as given. */
  function CreateLead(store: Store, input: LeadInput, id: string, createdAt: int, insertFails: bool): (r: (Result<Lead>, Store))
    ensures insertFails ==> r.0.Fail? && r.1 == store
    ensures !insertFails ==> r.0.Ok? && r.1 == store.(leads := store.leads + [r.0.value])
    ensures r.0.Ok? ==> LeadFields(r.0.value) == input && r.0.value.id == id && r.0.value.createdAt == createdAt
  {
    if insertFails then (Fail(InsertError), store)
    else
      var row := Lead(id, input.name, input.email, input.company, input.serviceInterest, input.message, createdAt);
      (Ok(row), store.(leads := store.leads + [row]))
  }

  /** `dbOperations.createReferral`: `status` is forced to pending and `eligible` to false. */
  function CreateReferral(store: Store, input: ReferralInput, id: string, createdAt: int, insertFails: bool): (r: (Result<Referral>, Store))
    ensures insertFails ==> r.0.Fail? && r.1 == store
    ensures !insertFails ==> r.0.Ok? && r.1 == store.(referrals := store.referrals + [r.0.value])
    ensures r.0.Ok? ==> r.0.value.status == ReferralPending && !r.0.value.eligible
    ensures r.0.Ok? ==> ReferralFields(r.0.value) == input.(status := None, eligible := None)
  {
    if insertFails then (Fail(InsertError), store)
    else
      var row := Referral(id, input.referrerType, input.name, input.email, input.referredCompany, input.referredContact,
                          input.serviceType, ReferralPending, false, input.discountCode, input.payoutAmountNad,
                          input.linkedProjectId, createdAt);
      (Ok(row), store.(referrals := store.referrals + [row]))
  }

  /** Whatever status and eligibility the caller smuggles in, the stored referral is the same. */
  lemma ReferralIgnoresCallerStatus(store: Store, input: ReferralInput, s: Option<ReferralStatus>, e: Option<bool>,
                                    id: string, createdAt: int, insertFails: bool)
    ensures CreateReferral(store, input.(status := s, eligible := e), id, createdAt, insertFails)
         == CreateReferral(store, input, id, createdAt, insertFails)
  {
  }

  /** `dbOperations.createApplication`: `status` is forced to pending. */
  function CreateApplication(store: Store, input: ApplicationInput, id: string, createdAt: int, insertFails: bool): (r: (Result<Application>, Store))
    ensures insertFails ==> r.0.Fail? && r.1 == store
    ensures !insertFails ==> r.0.Ok? && r.1 == store.(applications := store.applications + [r.0.value])
    ensures r.0.Ok? ==> r.0.value.status == AppPending
    ensures r.0.Ok? ==> ApplicationFields(r.0.value) == input.(status := None)
  {
    if insertFails then (Fail(InsertError), store)
    else
      var row := Application(id, input.fullName, input.email, input.roleInterest, input.cvUrl, input.coverNote,
                             AppPending, createdAt);
      (Ok(row), store.(applications := store.applications + [row]))
  }

  /** Whatever status the caller passes, the stored application is the same. */
  lemma ApplicationIgnoresCallerStatus(store: Store, input: ApplicationInput, s: Option<ApplicationStatus>,
                                       id: string, createdAt: int, insertFails: bool)
    ensures CreateApplication(store, input.(status := s), id, createdAt, insertFails)
         == CreateApplication(store, input, id, createdAt, insertFails)
  {
  }
}
