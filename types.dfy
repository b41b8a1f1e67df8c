/**
 * Row shapes of the public schema (src/integrations/supabase/types.ts).
 *
 * For each table the schema declares three shapes: `Row` (what a select
 * returns), `Insert` (what an insert accepts) and `Update` (what an update
 * accepts). A nullable column (`string | null`) is an `Option`; an optional
 * property (`name?: T`) is a `Field`, which is either `Omitted` or `Given`.
 * Postgres `number` columns are `real`; timestamps, dates and UUIDs are
 * strings, as in the schema.
 */
module Types {
  import opened Wrappers

  /** A property that may be left out of an object literal (`p?: T`). */
  datatype Field<+T> = Omitted | Given(value: T)

  /**
   * The user record of the identity provider, as far as the core reads it.
   * It is not declared in the schema file; every handler only reads `user.id`.
   */
  datatype AuthUser = AuthUser(id: string)

  // ---------------------------------------------------------------- inventory_items

  datatype ItemColumn =
    | Brand | Category | Color | Condition | CreatedAt | Description | EstimatedValue
    | Id | ImageUrl | Model | Name | PurchaseDate | PurchasePrice | RoomLocation
    | SerialNumber | UpdatedAt | UserId

  /** The columns of an `inventory_items` row that are never null. */
  const ItemRowNotNull: set<ItemColumn> := {Id, Name, UserId, CreatedAt, UpdatedAt}

  /** The properties an `inventory_items` insert must carry. */
  const ItemInsertRequired: set<ItemColumn> := {Name, UserId}

  datatype ItemRow = ItemRow(
    brand: Option<string>,
    category: Option<string>,
    color: Option<string>,
    condition: Option<string>,
    createdAt: string,
    description: Option<string>,
    estimatedValue: Option<real>,
    id: string,
    imageUrl: Option<string>,
    model: Option<string>,
    name: string,
    purchaseDate: Option<string>,
    purchasePrice: Option<real>,
    roomLocation: Option<string>,
    serialNumber: Option<string>,
    updatedAt: string,
    userId: string)

  datatype ItemInsert = ItemInsert(
    brand: Field<Option<string>>,
    category: Field<Option<string>>,
    color: Field<Option<string>>,
    condition: Field<Option<string>>,
    createdAt: Field<string>,
    description: Field<Option<string>>,
    estimatedValue: Field<Option<real>>,
    id: Field<string>,
    imageUrl: Field<Option<string>>,
    model: Field<Option<string>>,
    name: string,
    purchaseDate: Field<Option<string>>,
    purchasePrice: Field<Option<real>>,
    roomLocation: Field<Option<string>>,
    serialNumber: Field<Option<string>>,
    updatedAt: Field<string>,
    userId: string)

  datatype ItemUpdate = ItemUpdate(
    brand: Field<Option<string>>,
    category: Field<Option<string>>,
    color: Field<Option<string>>,
    condition: Field<Option<string>>,
    createdAt: Field<string>,
    description: Field<Option<string>>,
    estimatedValue: Field<Option<real>>,
    id: Field<string>,
    imageUrl: Field<Option<string>>,
    model: Field<Option<string>>,
    name: Field<string>,
    purchaseDate: Field<Option<string>>,
    purchasePrice: Field<Option<real>>,
    roomLocation: Field<Option<string>>,
    serialNumber: Field<Option<string>>,
    updatedAt: Field<string>,
    userId: Field<string>)

  /** Whether column `c` is null in `row` (false for the columns that are not nullable). */
  predicate ItemRowIsNull(row: ItemRow, c: ItemColumn) {
    match c
    case Brand => row.brand.None?
    case Category => row.category.None?
    case Color => row.color.None?
    case Condition => row.condition.None?
    case Description => row.description.None?
    case EstimatedValue => row.estimatedValue.None?
    case ImageUrl => row.imageUrl.None?
    case Model => row.model.None?
    case PurchaseDate => row.purchaseDate.None?
    case PurchasePrice => row.purchasePrice.None?
    case RoomLocation => row.roomLocation.None?
    case SerialNumber => row.serialNumber.None?
    case CreatedAt | Id | Name | UpdatedAt | UserId => false
  }

  /** Whether property `c` is present in an insert object. */
  predicate ItemInsertHas(ins: ItemInsert, c: ItemColumn) {
    match c
    case Brand => ins.brand.Given?
    case Category => ins.category.Given?
    case Color => ins.color.Given?
    case Condition => ins.condition.Given?
    case CreatedAt => ins.createdAt.Given?
    case Description => ins.description.Given?
    case EstimatedValue => ins.estimatedValue.Given?
    case Id => ins.id.Given?
    case ImageUrl => ins.imageUrl.Given?
    case Model => ins.model.Given?
    case Name => true
    case PurchaseDate => ins.purchaseDate.Given?
    case PurchasePrice => ins.purchasePrice.Given?
    case RoomLocation => ins.roomLocation.Given?
    case SerialNumber => ins.serialNumber.Given?
    case UpdatedAt => ins.updatedAt.Given?
    case UserId => true
  }

  /** Whether property `c` is present in an update object. */
  predicate ItemUpdateHas(upd: ItemUpdate, c: ItemColumn) {
    match c
    case Brand => upd.brand.Given?
    case Category => upd.category.Given?
    case Color => upd.color.Given?
    case Condition => upd.condition.Given?
    case CreatedAt => upd.createdAt.Given?
    case Description => upd.description.Given?
    case EstimatedValue => upd.estimatedValue.Given?
    case Id => upd.id.Given?
    case ImageUrl => upd.imageUrl.Given?
    case Model => upd.model.Given?
    case Name => upd.name.Given?
    case PurchaseDate => upd.purchaseDate.Given?
    case PurchasePrice => upd.purchasePrice.Given?
    case RoomLocation => upd.roomLocation.Given?
    case SerialNumber => upd.serialNumber.Given?
    case UpdatedAt => upd.updatedAt.Given?
    case UserId => upd.userId.Given?
  }

  /** The smallest insert the schema accepts: only the two required properties. */
  function MinimalItemInsert(name: string, userId: string): ItemInsert {
    ItemInsert(Omitted, Omitted, Omitted, Omitted, Omitted, Omitted, Omitted, Omitted,
               Omitted, Omitted, name, Omitted, Omitted, Omitted, Omitted, Omitted, userId)
  }

  /** The update that changes nothing. */
  const EmptyItemUpdate: ItemUpdate :=
    ItemUpdate(Omitted, Omitted, Omitted, Omitted, Omitted, Omitted, Omitted, Omitted, Omitted,
               Omitted, Omitted, Omitted, Omitted, Omitted, Omitted, Omitted, Omitted)

  /** The row with every nullable column null. */
  function AllNullItemRow(id: string, name: string, userId: string, createdAt: string,
                          updatedAt: string): ItemRow
  {
    ItemRow(None, None, None, None, createdAt, None, None, id, None, None, name,
            None, None, None, None, updatedAt, userId)
  }

  /**
   * Id, name, owner and the two timestamps of a row are never null, and every
   * other column is nullable: all of them are null at once in some row.
   */
  lemma ItemRowNullable(row: ItemRow, c: ItemColumn, id: string, name: string, userId: string,
                        createdAt: string, updatedAt: string)
    ensures c in ItemRowNotNull ==> !ItemRowIsNull(row, c)
    ensures c !in ItemRowNotNull ==> ItemRowIsNull(AllNullItemRow(id, name, userId, createdAt, updatedAt), c)
  {
  }

  /** An insert always carries the name and the owner, and it need carry nothing else. */
  lemma ItemInsertRequiredColumns(ins: ItemInsert, c: ItemColumn, name: string, userId: string)
    ensures c in ItemInsertRequired ==> ItemInsertHas(ins, c)
    ensures c !in ItemInsertRequired ==> !ItemInsertHas(MinimalItemInsert(name, userId), c)
  {
  }

  /** No property of an update is required. */
  lemma ItemUpdateAllOptional(c: ItemColumn)
    ensures !ItemUpdateHas(EmptyItemUpdate, c)
  {
  }

  // ---------------------------------------------------------------- inventory_jobs

  datatype JobColumn =
    | AssignedTo | ClaimNumber | ClientAddress | ClientName | JobCreatedAt | CreatedBy
    | DueDate | JobId | JobName | JobStatus | Notes | PolicyNumber | Priority
    | Supervisor | JobUpdatedAt

  /** The properties an `inventory_jobs` insert must carry. */
  const JobInsertRequired: set<JobColumn> := {ClientName, CreatedBy, JobName}

  datatype JobRow = JobRow(
    assignedTo: Option<string>,
    claimNumber: Option<string>,
    clientAddress: Option<string>,
    clientName: string,
    createdAt: string,
    createdBy: string,
    dueDate: Option<string>,
    id: string,
    jobName: string,
    jobStatus: Option<string>,
    notes: Option<string>,
    policyNumber: Option<string>,
    priority: Option<string>,
    supervisor: Option<string>,
    updatedAt: string)

  datatype JobInsert = JobInsert(
    assignedTo: Field<Option<string>>,
    claimNumber: Field<Option<string>>,
    clientAddress: Field<Option<string>>,
    clientName: string,
    createdAt: Field<string>,
    createdBy: string,
    dueDate: Field<Option<string>>,
    id: Field<string>,
    jobName: string,
    jobStatus: Field<Option<string>>,
    notes: Field<Option<string>>,
    policyNumber: Field<Option<string>>,
    priority: Field<Option<string>>,
    supervisor: Field<Option<string>>,
    updatedAt: Field<string>)

  datatype JobUpdate = JobUpdate(
    assignedTo: Field<Option<string>>,
    claimNumber: Field<Option<string>>,
    clientAddress: Field<Option<string>>,
    clientName: Field<string>,
    createdAt: Field<string>,
    createdBy: Field<string>,
    dueDate: Field<Option<string>>,
    id: Field<string>,
    jobName: Field<string>,
    jobStatus: Field<Option<string>>,
    notes: Field<Option<string>>,
    policyNumber: Field<Option<string>>,
    priority: Field<Option<string>>,
    supervisor: Field<Option<string>>,
    updatedAt: Field<string>)

  /** Whether property `c` is present in a job insert object. */
  predicate JobInsertHas(ins: JobInsert, c: JobColumn) {
    match c
    case AssignedTo => ins.assignedTo.Given?
    case ClaimNumber => ins.claimNumber.Given?
    case ClientAddress => ins.clientAddress.Given?
    case ClientName => true
    case JobCreatedAt => ins.createdAt.Given?
    case CreatedBy => true
    case DueDate => ins.dueDate.Given?
    case JobId => ins.id.Given?
    case JobName => true
    case JobStatus => ins.jobStatus.Given?
    case Notes => ins.notes.Given?
    case PolicyNumber => ins.policyNumber.Given?
    case Priority => ins.priority.Given?
    case Supervisor => ins.supervisor.Given?
    case JobUpdatedAt => ins.updatedAt.Given?
  }

  /** The smallest job insert the schema accepts. */
  function MinimalJobInsert(clientName: string, createdBy: string, jobName: string): JobInsert {
    JobInsert(Omitted, Omitted, Omitted, clientName, Omitted, createdBy, Omitted, Omitted,
              jobName, Omitted, Omitted, Omitted, Omitted, Omitted, Omitted)
  }

  /** A job insert always carries client name, creator and job name; nothing else is required. */
  lemma JobInsertRequiredColumns(ins: JobInsert, c: JobColumn, clientName: string, createdBy: string,
                                 jobName: string)
    ensures c in JobInsertRequired ==> JobInsertHas(ins, c)
    ensures c !in JobInsertRequired ==> !JobInsertHas(MinimalJobInsert(clientName, createdBy, jobName), c)
  {
  }

  // ---------------------------------------------------------------- profiles

  datatype ProfileRow = ProfileRow(
    companyAddress: Option<string>,
    companyLogoUrl: Option<string>,
    companyName: Option<string>,
    createdAt: string,
    email: string,
    fullName: Option<string>,
    id: string,
    iicrcCertificationNumber: Option<string>,
    licenseNumber: Option<string>)

  datatype ProfileInsert = ProfileInsert(
    companyAddress: Field<Option<string>>,
    companyLogoUrl: Field<Option<string>>,
    companyName: Field<Option<string>>,
    createdAt: Field<string>,
    email: string,
    fullName: Field<Option<string>>,
    id: string,
    iicrcCertificationNumber: Field<Option<string>>,
    licenseNumber: Field<Option<string>>)

  datatype ProfileUpdate = ProfileUpdate(
    companyAddress: Field<Option<string>>,
    companyLogoUrl: Field<Option<string>>,
    companyName: Field<Option<string>>,
    createdAt: Field<string>,
    email: Field<string>,
    fullName: Field<Option<string>>,
    id: Field<string>,
    iicrcCertificationNumber: Field<Option<string>>,
    licenseNumber: Field<Option<string>>)

  // ---------------------------------------------------------------- user_roles and app_role

  /** The `app_role` enum. */
  datatype AppRole = User | Admin

  /** The string literal each enum member stands for. */
  function AppRoleName(r: AppRole): string {
    match r
    case User => "user"
    case Admin => "admin"
  }

  /** `Constants.public.Enums.app_role`. */
  const AppRoleConstants: seq<AppRole> := [User, Admin]

  datatype UserRoleRow = UserRoleRow(id: string, role: AppRole, userId: string)
  datatype UserRoleInsert = UserRoleInsert(id: Field<string>, role: AppRole, userId: string)
  datatype UserRoleUpdate = UserRoleUpdate(id: Field<string>, role: Field<AppRole>, userId: Field<string>)

  /**
   * `Constants` lists every member of `app_role` exactly once, in declaration
   * order, and the members are told apart by their names.
   */
  lemma AppRoleConstantsExact()
    ensures forall r: AppRole :: r in AppRoleConstants
    ensures |AppRoleConstants| == 2 && AppRoleConstants[0] != AppRoleConstants[1]
    ensures AppRoleName(AppRoleConstants[0]) == "user" && AppRoleName(AppRoleConstants[1]) == "admin"
    ensures forall r, s: AppRole :: AppRoleName(r) == AppRoleName(s) ==> r == s
  {
    forall r: AppRole ensures r in AppRoleConstants {
      match r
      case User => assert AppRoleConstants[0] == r;
      case Admin => assert AppRoleConstants[1] == r;
    }
  }
}
