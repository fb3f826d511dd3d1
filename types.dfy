/** The expense record and its closed enumerations (`Department`,
    `ExpenseCategory`, `PaymentMethod`), with the calendar values that stand
    for JavaScript `Date` objects. */
module Types {

  datatype Option<T> = None | Some(value: T)

  // ---------------------------------------------------------------------
  // Closed enumerations. Each is a TypeScript union of string literals; the
  // literal is the value's run-time representation, given by the *Name
  // functions.
  // ---------------------------------------------------------------------

  datatype Department = Bakery | Bar | Kitchen | Maintenance | FrontOfHouse | Administration

  datatype Category =
    | Ingredients | Equipment | Utilities | Labor | Marketing
    | Repairs     // the literal 'maintenance'; renamed to keep apart from Department.Maintenance
    | Supplies | Beverages | Cleaning | Other

  datatype PaymentMethod = Cash | Credit | Debit | Check | Transfer

  function DepartmentName(d: Department): string
  {
    match d
    case Bakery => "bakery"
    case Bar => "bar"
    case Kitchen => "kitchen"
    case Maintenance => "maintenance"
    case FrontOfHouse => "front_of_house"
    case Administration => "administration"
  }

  function CategoryName(c: Category): string
  {
    match c
    case Ingredients => "ingredients"
    case Equipment => "equipment"
    case Utilities => "utilities"
    case Labor => "labor"
    case Marketing => "marketing"
    case Repairs => "maintenance"
    case Supplies => "supplies"
    case Beverages => "beverages"
    case Cleaning => "cleaning"
    case Other => "other"
  }

  function PaymentMethodName(m: PaymentMethod): string
  {
    match m
    case Cash => "cash"
    case Credit => "credit"
    case Debit => "debit"
    case Check => "check"
    case Transfer => "transfer"
  }

  predicate Distinct<T(==)>(s: seq<T>)
  {
    forall i, j :: 0 <= i < j < |s| ==> s[i] != s[j]
  }

  /** The six departments, each exactly once. */
  function AllDepartments(): (ds: seq<Department>)
    ensures |ds| == 6 && Distinct(ds)
    ensures forall d: Department :: d in ds
  {
    var ds := [Bakery, Bar, Kitchen, Maintenance, FrontOfHouse, Administration];
    ListsEveryDepartment(ds);
    ds
  }

  lemma ListsEveryDepartment(ds: seq<Department>)
    requires ds == [Bakery, Bar, Kitchen, Maintenance, FrontOfHouse, Administration]
    ensures forall x: Department :: x in ds
  {
    forall x: Department ensures x in ds {
      match x
      case Bakery => assert ds[0] == x;
      case Bar => assert ds[1] == x;
      case Kitchen => assert ds[2] == x;
      case Maintenance => assert ds[3] == x;
      case FrontOfHouse => assert ds[4] == x;
      case Administration => assert ds[5] == x;
    }
  }

  /** The ten categories, each exactly once. */
  function AllCategories(): (cs: seq<Category>)
    ensures |cs| == 10 && Distinct(cs)
    ensures forall c: Category :: c in cs
  {
    var cs := [Ingredients, Equipment, Utilities, Labor, Marketing, Repairs, Supplies, Beverages, Cleaning, Other];
    ListsEveryCategory(cs);
    cs
  }

  lemma ListsEveryCategory(cs: seq<Category>)
    requires cs == [Ingredients, Equipment, Utilities, Labor, Marketing, Repairs, Supplies, Beverages, Cleaning, Other]
    ensures forall x: Category :: x in cs
  {
    forall x: Category ensures x in cs {
      match x
      case Ingredients => assert cs[0] == x;
      case Equipment => assert cs[1] == x;
      case Utilities => assert cs[2] == x;
      case Labor => assert cs[3] == x;
      case Marketing => assert cs[4] == x;
      case Repairs => assert cs[5] == x;
      case Supplies => assert cs[6] == x;
      case Beverages => assert cs[7] == x;
      case Cleaning => assert cs[8] == x;
      case Other => assert cs[9] == x;
    }
  }

  /** The five payment methods, each exactly once. */
  function AllPaymentMethods(): (ms: seq<PaymentMethod>)
    ensures |ms| == 5 && Distinct(ms)
    ensures forall m: PaymentMethod :: m in ms
  {
    var ms := [Cash, Credit, Debit, Check, Transfer];
    ListsEveryPaymentMethod(ms);
    ms
  }

  lemma ListsEveryPaymentMethod(ms: seq<PaymentMethod>)
    requires ms == [Cash, Credit, Debit, Check, Transfer]
    ensures forall x: PaymentMethod :: x in ms
  {
    forall x: PaymentMethod ensures x in ms {
      match x
      case Cash => assert ms[0] == x;
      case Credit => assert ms[1] == x;
      case Debit => assert ms[2] == x;
      case Check => assert ms[3] == x;
      case Transfer => assert ms[4] == x;
    }
  }

  /** Reads a union literal back as its department. The `<select>`s offer
      only these literals, and `value as Department` checks nothing at run
      time; `None` marks a string that is not one of them. */
  function ParseDepartment(s: string): (r: Option<Department>)
    ensures r.Some? ==> DepartmentName(r.value) == s
  {
    if s == "bakery" then Some(Bakery)
    else if s == "bar" then Some(Bar)
    else if s == "kitchen" then Some(Kitchen)
    else if s == "maintenance" then Some(Maintenance)
    else if s == "front_of_house" then Some(FrontOfHouse)
    else if s == "administration" then Some(Administration)
    else None
  }

  function ParseCategory(s: string): (r: Option<Category>)
    ensures r.Some? ==> CategoryName(r.value) == s
  {
    if s == "ingredients" then Some(Ingredients)
    else if s == "equipment" then Some(Equipment)
    else if s == "utilities" then Some(Utilities)
    else if s == "labor" then Some(Labor)
    else if s == "marketing" then Some(Marketing)
    else if s == "maintenance" then Some(Repairs)
    else if s == "supplies" then Some(Supplies)
    else if s == "beverages" then Some(Beverages)
    else if s == "cleaning" then Some(Cleaning)
    else if s == "other" then Some(Other)
    else None
  }

  function ParsePaymentMethod(s: string): (r: Option<PaymentMethod>)
    ensures r.Some? ==> PaymentMethodName(r.value) == s
  {
    if s == "cash" then Some(Cash)
    else if s == "credit" then Some(Credit)
    else if s == "debit" then Some(Debit)
    else if s == "check" then Some(Check)
    else if s == "transfer" then Some(Transfer)
    else None
  }

  /** Every value's string literal denotes that value and no other: the
      literals of a union are pairwise distinct. */
  lemma NamesRoundTrip(d: Department, c: Category, m: PaymentMethod)
    ensures ParseDepartment(DepartmentName(d)) == Some(d)
    ensures ParseCategory(CategoryName(c)) == Some(c)
    ensures ParsePaymentMethod(PaymentMethodName(m)) == Some(m)
  {
  }

  // ---------------------------------------------------------------------
  // Dates. A JavaScript `Date` is modelled by its local calendar fields:
  // the year, the zero-based month index of `getMonth()`, the day of the
  // month and the milliseconds since local midnight.
  // ---------------------------------------------------------------------

  type Year = y: nat | 1 <= y witness 1
  type Month = m: nat | m < 12
  type DayOfMonth = d: nat | 1 <= d <= 31 witness 1

  const MillisPerDay: nat := 86_400_000
  type TimeOfDay = t: nat | t < MillisPerDay

  datatype CalendarDate = CalendarDate(year: Year, month: Month, day: DayOfMonth)
  datatype Instant = Instant(date: CalendarDate, time: TimeOfDay)

  /** Calendar order: by year, then month, then day. */
  predicate DateLe(a: CalendarDate, b: CalendarDate)
  {
    a.year < b.year
    || (a.year == b.year && (a.month < b.month || (a.month == b.month && a.day <= b.day)))
  }

  /** Chronological order of instants, as `Date` comparison orders them. */
  predicate InstantLe(a: Instant, b: Instant)
  {
    (DateLe(a.date, b.date) && a.date != b.date) || (a.date == b.date && a.time <= b.time)
  }

  // ---------------------------------------------------------------------
  // The expense record. `notes` is the only optional field; `ExpenseDraft`
  // is `Omit<Expense, 'id'>`, what the entry form hands to the store.
  // ---------------------------------------------------------------------

  /** Opaque identifier; only its freshness matters. */
  type ExpenseId = nat

  datatype ExpenseDraft = ExpenseDraft(
    date: Instant,
    department: Department,
    category: Category,
    item: string,
    amount: real,
    supplier: string,
    paymentMethod: PaymentMethod,
    notes: Option<string>)

  datatype Expense = Expense(
    id: ExpenseId,
    date: Instant,
    department: Department,
    category: Category,
    item: string,
    amount: real,
    supplier: string,
    paymentMethod: PaymentMethod,
    notes: Option<string>)

  /** The record without its identifier. */
  function DraftOf(e: Expense): ExpenseDraft
  {
    ExpenseDraft(e.date, e.department, e.category, e.item, e.amount, e.supplier, e.paymentMethod, e.notes)
  }

  /** `{ ...draft, id }`: every submitted field is kept and `id` is added. */
  function WithId(draft: ExpenseDraft, id: ExpenseId): (e: Expense)
    ensures e.id == id && DraftOf(e) == draft
  {
    Expense(id, draft.date, draft.department, draft.category, draft.item, draft.amount,
            draft.supplier, draft.paymentMethod, draft.notes)
  }

  /** A record is determined by its identifier and its other fields. */
  lemma WithIdDraftOf(e: Expense)
    ensures WithId(DraftOf(e), e.id) == e
  {
  }
}
