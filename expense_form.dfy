/** The entry form: the department-to-category table, the default-category
    rule applied when the department changes, and the submit step that hands
    a draft record to the store and resets the form. */
module ExpenseForm {
  import opened Types
  import Dates

  /** `departmentCategories[d]`: the categories offered for a department, in
      display order; the first is the default. */
  function Categories(d: Department): (cs: seq<Category>)
    ensures |cs| >= 1
    ensures Distinct(cs)
    ensures Other in cs
  {
    match d
    case Bakery => [Ingredients, Equipment, Supplies, Labor, Repairs, Cleaning, Other]
    case Bar => [Beverages, Equipment, Supplies, Labor, Repairs, Cleaning, Other]
    case Kitchen => [Ingredients, Equipment, Supplies, Labor, Repairs, Cleaning, Other]
    case Maintenance => [Equipment, Supplies, Utilities, Repairs, Cleaning, Other]
    case FrontOfHouse => [Supplies, Equipment, Labor, Cleaning, Other]
    case Administration => [Marketing, Utilities, Supplies, Other]
  }

  /** `departmentCategories[d][0]`, always defined. */
  function DefaultCategory(d: Department): (c: Category)
    ensures c in Categories(d)
  {
    Categories(d)[0]
  }

  /** The default of each department. */
  lemma DefaultCategories()
    ensures DefaultCategory(Bakery) == Ingredients
    ensures DefaultCategory(Bar) == Beverages
    ensures DefaultCategory(Kitchen) == Ingredients
    ensures DefaultCategory(Maintenance) == Equipment
    ensures DefaultCategory(FrontOfHouse) == Supplies
    ensures DefaultCategory(Administration) == Marketing
  {
  }

  /** The form's fields. Date and amount are the raw strings of their
      inputs; the others hold the values of their `<select>`s and text
      boxes. */
  datatype FormState = FormState(
    date: string,
    department: Department,
    category: Category,
    item: string,
    amount: string,
    supplier: string,
    paymentMethod: PaymentMethod,
    notes: string)

  /** The chosen category is one of those offered for the chosen department. */
  predicate Consistent(f: FormState)
  {
    f.category in Categories(f.department)
  }

  /** The initial state, and the state after every submit: today's date,
      kitchen, ingredients, cash, everything else empty. */
  function InitialForm(today: CalendarDate): (f: FormState)
    ensures f.date == Dates.FormatIso(today)
    ensures f.department == Kitchen && f.paymentMethod == Cash
    ensures Consistent(f)
    ensures f.category == DefaultCategory(f.department)
    ensures f.item == "" && f.amount == "" && f.supplier == "" && f.notes == ""
  {
    FormState(Dates.FormatIso(today), Kitchen, Ingredients, "", "", "", Cash, "")
  }

  /** `handleDepartmentChange(d)`: the department becomes `d` and the
      category its default; nothing else changes. */
  function HandleDepartmentChange(f: FormState, d: Department): (r: FormState)
    ensures r.department == d && r.category == DefaultCategory(d)
    ensures Consistent(r)
    ensures r.(department := f.department, category := f.category) == f
  {
    f.(department := d, category := Categories(d)[0])
  }

  /** Picking a category from the `<select>`, which offers only the
      categories of the current department. */
  function HandleCategoryChange(f: FormState, c: Category): (r: FormState)
    requires c in Categories(f.department)
    ensures Consistent(r) && r.category == c
    ensures r.(category := f.category) == f
  {
    f.(category := c)
  }

  /** `handleSubmit`: the draft passed to `onSubmit`, and the reset form.
      `date` and `amount` stand for `new Date(f.date)` and `Number(f.amount)`,
      conversions done by the JavaScript runtime. */
  function HandleSubmit(f: FormState, date: Instant, amount: real, today: CalendarDate): (r: (ExpenseDraft, FormState))
    ensures r.0.department == f.department && r.0.category == f.category
    ensures r.0.item == f.item && r.0.supplier == f.supplier && r.0.paymentMethod == f.paymentMethod
    ensures r.0.notes == Some(f.notes)
    ensures r.0.date == date && r.0.amount == amount
    ensures Consistent(f) ==> r.0.category in Categories(r.0.department)
    ensures r.1 == InitialForm(today) && Consistent(r.1)
  {
    (ExpenseDraft(date, f.department, f.category, f.item, amount, f.supplier, f.paymentMethod, Some(f.notes)),
     InitialForm(today))
  }
}
