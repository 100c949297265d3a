/**
 * The client record (`clients` table): the column constraints on gender and
 * status, the display name, and the audit configuration the class declares
 * for the audit mixin.
 */
module ClientModel {
  import opened Common
  import opened AuditMixins

  const CLIENT_STATUS_VALUES: seq<string> := ["active", "inactive", "discharged", "deceased", "on_hold"]
  const GENDER_VALUES: seq<string> := ["male", "female", "other", "prefer_not_to_say"]
  const DEFAULT_CLIENT_STATUS: string := "active"

  /** A client row, with the columns the rest of the model reads. */
  datatype Client = Client(
    id: Id,
    organizationId: Id,
    clientId: string,
    userId: Option<Id>,
    firstName: string,
    lastName: string,
    preferredName: Option<string>,
    dateOfBirth: Day,
    gender: string,
    status: string,
    admissionDate: Day,
    dischargeDate: Option<Day>,
    primaryDiagnosis: Option<string>)

  /** The two check constraints of the table. */
  predicate ClientConstraints(c: Client)
  {
    c.gender in GENDER_VALUES && c.status in CLIENT_STATUS_VALUES
  }

  /** A row as inserted when `status` is not given: the column default applies. */
  function NewClient(id: Id, organizationId: Id, clientId: string, firstName: string, lastName: string,
                     dateOfBirth: Day, gender: string, admissionDate: Day): (r: Client)
    ensures r.status == DEFAULT_CLIENT_STATUS && r.userId.None? && r.dischargeDate.None?
    ensures ClientConstraints(r) <==> gender in GENDER_VALUES
  {
    Client(id, organizationId, clientId, None, firstName, lastName, None, dateOfBirth, gender,
           DEFAULT_CLIENT_STATUS, admissionDate, None, None)
  }

  /** `Client.full_name`: first name, one space, last name; the two parts can be read back. */
  function FullName(c: Client): (r: string)
    ensures |r| == |c.firstName| + 1 + |c.lastName|
    ensures r[..|c.firstName|] == c.firstName && r[|c.firstName|] == ' ' && r[|c.firstName| + 1..] == c.lastName
  {
    c.firstName + " " + c.lastName
  }

  /** `client_id` carries a database-wide unique constraint. */
  predicate ClientIdsUnique(rows: seq<Client>)
  {
    forall i, j :: 0 <= i < j < |rows| ==> rows[i].clientId != rows[j].clientId
  }

  /** Whether client `id` belongs to organisation `org`. */
  predicate ClientInOrg(rows: seq<Client>, id: Id, org: Option<Id>)
  {
    exists k :: 0 <= k < |rows| && rows[k].id == id && Some(rows[k].organizationId) == org
  }

  function ClientMatch(id: Id, org: Option<Id>): Client -> bool
  {
    (c: Client) => c.id == id && Some(c.organizationId) == org
  }

  /** `filter(Client.id == id, Client.organization_id == org).first()`. */
  function FindClient(rows: seq<Client>, id: Id, org: Option<Id>): (r: Option<Client>)
    ensures r.Some? <==> ClientInOrg(rows, id, org)
    ensures r.Some? ==> r.value in rows && r.value.id == id && Some(r.value.organizationId) == org
  {
    var i := FirstMatch(rows, ClientMatch(id, org));
    if i.None? then None else Some(rows[i.value])
  }

  /** A row of `client_assignments`: a client's placement at a location, current until ended. */
  datatype ClientAssignment = ClientAssignment(id: Id, clientId: Id, locationId: Id, startDate: Day,
                                               endDate: Option<Day>, isCurrent: bool)

  const CLIENT_PHI_FIELDS: seq<string> := ["first_name", "last_name", "date_of_birth", "ssn", "phone_number",
                                            "email", "address", "emergency_contact", "medical_information",
                                            "dietary_restrictions", "notes", "medication_allergies"]
  const CLIENT_EXCLUDED_FIELDS: seq<string> := ["created_at", "updated_at", "password_hash"]

  /** The audit settings `Client` declares for the PHI audit mixin. */
  function ClientAuditConfig(): (r: AuditConfig)
    ensures r.resourceType == "client" && r.className == "Client"
    ensures "first_name" in r.phiFields && "date_of_birth" in r.phiFields
    ensures "created_at" in r.excludeFields && "first_name" !in r.excludeFields
  {
    AuditConfig("Client", "client", CLIENT_PHI_FIELDS, CLIENT_EXCLUDED_FIELDS)
  }
}
