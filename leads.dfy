/** The lead record and the job message that travel from the orchestrator to the worker. */
module Leads {
  import opened PyValues

  /** The address sub-map of a lead. Every field is what `record.get(...)` gave: a string or None. */
  datatype LeadAddress = LeadAddress(
    street: Option<string>,
    city: Option<string>,
    state: Option<string>,
    postalCode: Option<string>,
    country: Option<string>)

  /**
   * The `id` entry of a lead dict: absent (`lead['id']` raises KeyError), or
   * present with a string or with a JSON null.
   */
  datatype LeadId = IdAbsent | IdPresent(raw: Option<string>)

  /** One lead as the orchestrator builds it from a CRM query record. */
  datatype Lead = Lead(
    id: LeadId,
    company: Option<string>,
    website: Option<string>,
    email: Option<string>,
    phone: Option<string>,
    firstName: Option<string>,
    lastName: Option<string>,
    title: Option<string>,
    createdDate: Option<string>,
    address: LeadAddress)

  /**
   * The job parameters. `None` stands for a key that is absent from the
   * parameters dict; a present key holds any JSON value.
   */
  datatype Params = Params(updateSalesforce: Option<Value>, limit: Option<Value>)

  /** The parameters a worker falls back to when the message carries none (`body.get('parameters', {})`). */
  const NoParams := Params(None, None)

  /** `parameters.get('update_salesforce', False)` is truthy. */
  predicate UpdateRequested(p: Params) {
    p.updateSalesforce.Some? && Truthy(p.updateSalesforce.value)
  }

  /** The queue message body `{job_id, lead, parameters}`. */
  datatype Message = Message(jobId: string, lead: Lead, parameters: Params)

  /** `lead.get('id')`: None when the key is absent or null. */
  function IdOf(lead: Lead): Option<string> {
    if lead.id.IdPresent? then lead.id.raw else None
  }

  /** `not website`: the lead has no website or an empty one. */
  predicate HasWebsite(lead: Lead) {
    lead.website.Some? && lead.website.value != ""
  }
}
