/** Rows, enums, inputs and the result envelope shared by every server action and webhook. */
module Types {

  /** Row identifiers (Prisma cuids) and Clerk user ids are opaque strings. */
  type Id = string

  /** Dates are opaque instants; only their order is ever used. */
  type Timestamp = int

  datatype Option<+T> = None | Some(value: T)

  /** JavaScript truthiness of an optional string: `undefined` and `""` are both falsy. */
  predicate Present(o: Option<string>)
  {
    o.Some? && o.value != ""
  }

  /** `o ?? fallback` for an optional patch field: an absent field leaves the stored value. */
  function Override<T>(o: Option<T>, current: T): T
  {
    match o
    case Some(v) => v
    case None => current
  }

  // ---------------------------------------------------------------- enums

  datatype Status = Active | Inactive | Deceased
  datatype Role = Executor | Recipient
  datatype Relationship = Family | Friend | Coworker | Legal | OtherRelation
  datatype Category = SocialMedia | EmailCommunication | Financial | Crypto | Subscriptions | Other
  datatype ActionOnDeath = Delete | Transfer | Memorialize

  /** The six categories in the order the stats record lists them. */
  const AllCategories: seq<Category> :=
    [SocialMedia, EmailCommunication, Financial, Crypto, Subscriptions, Other]

  lemma AllCategoriesListsEveryCategory(c: Category)
    ensures c in AllCategories
  {
  }

  // ---------------------------------------------------------------- rows

  datatype Profile = Profile(
    clerkUserId: string,
    fullName: string,
    email: string,
    dateOfBirth: Option<Timestamp>,
    phone: Option<string>,
    countryOfResidence: Option<string>,
    status: Status,
    deceasedAt: Option<Timestamp>,
    onboardingComplete: bool)

  datatype Contact = Contact(
    userId: Id,
    name: string,
    email: Option<string>,
    phone: Option<string>,
    relationship: Relationship,
    role: Role,
    createdAt: Timestamp)

  datatype Account = Account(
    userId: Id,
    category: Category,
    platformName: string,
    platformIcon: Option<string>,
    username: Option<string>,
    email: Option<string>,
    actionOnDeath: ActionOnDeath,
    transferToId: Option<Id>,
    notes: Option<string>,
    updatedAt: Timestamp)

  datatype Document = Document(
    userId: Id,
    name: string,
    description: Option<string>,
    fileUrl: string,
    fileType: string,
    fileSize: int,
    isWill: bool,
    updatedAt: Timestamp)

  datatype Folder = Folder(
    userId: Id,
    name: string,
    description: Option<string>,
    updatedAt: Timestamp)

  datatype MediaItem = MediaItem(
    userId: Id,
    name: string,
    fileUrl: string,
    fileType: string,
    fileSize: int,
    folderId: Option<Id>,
    createdAt: Timestamp)

  /** A legacy access token row; the (profile, contact) pair it belongs to is its key in the store. */
  datatype LegacyToken = LegacyToken(token: string, expiresAt: Option<Timestamp>)

  datatype Invitation = Invitation(email: string, name: Option<string>, insuranceRef: Option<string>)

  // ---------------------------------------------------------------- result envelope

  /** The table a "... not found" error names. */
  datatype Table = Documents | Folders | Accounts | Contacts | MediaItems

  /** The errors the actions throw inside their try block and return as `{ error }`. */
  datatype ActionError =
    | NotAuthenticated          // "Not authenticated"
    | ProfileNotFound           // "Profile not found" (and its onboarding variant)
    | ProfileAlreadyExists      // "Profile already exists"
    | Locked                    // "This account has been locked. No modifications allowed."
    | Deactivated               // "This account has been deactivated."
    | NotFound(table: Table)    // "Document not found", "Folder not found", ...
    | ContactsNotFound          // "One or more contacts not found"
    | TransferContactNotFound   // "Transfer contact not found"
    | NoFileProvided            // "No file provided"
    | RecordNotFound            // Prisma `update`/`delete` on a row that does not exist
    | UniqueViolation           // Prisma `createMany` inserting an existing composite key

  /** `{ data: T } | { error }`: the actions never throw across their boundary. */
  datatype Outcome<+T> = Data(value: T) | Error(error: ActionError)

  /** The lifecycle gate: DECEASED is checked before INACTIVE, and only ACTIVE passes. */
  function Gate(status: Status): (r: Option<ActionError>)
    ensures r.None? <==> status == Active
  {
    match status
    case Deceased => Some(Locked)
    case Inactive => Some(Deactivated)
    case Active => None
  }
}
