/** The project form (components/AddProjectModal.tsx): the field rules
    checked before a project is saved, and the editing of its cost-category
    list. */
module ProjectForm {
  import opened Text

  /** The form fields an error can be recorded against. */
  datatype Field = Name | Client | Budget | ExpectedRevenue | StartDate | EndDate | CostCategories

  datatype ProjectDraft = ProjectDraft(
    name: string,
    client: string,
    budget: real,
    expectedRevenue: real,
    startDate: string,
    endDate: string,
    costCategories: seq<string>)

  /** The rule each field must meet, stated as its violation. Dates are ISO
      `YYYY-MM-DD` strings, which compare like the days they denote; the
      end date is only checked when both dates are filled in. */
  predicate Violates(d: ProjectDraft, f: Field) {
    match f
    case Name => |d.name| < 3
    case Client => d.client == ""
    case Budget => d.budget <= 0.0
    case ExpectedRevenue => d.expectedRevenue <= 0.0
    case StartDate => d.startDate == ""
    case EndDate => d.endDate != "" && d.startDate != "" && Compare(d.endDate, d.startDate) < 0
    case CostCategories => |d.costCategories| == 0
  }

  function Message(f: Field): string {
    match f
    case Name => "Project name must be at least 3 characters"
    case Client => "Client name is required"
    case Budget => "Budget must be a positive number"
    case ExpectedRevenue => "Expected revenue must be a positive number"
    case StartDate => "Start date is required"
    case EndDate => "End date must be after start date"
    case CostCategories => "Add at least one cost category"
  }

  /** `errors` holds the message of exactly the violated rules among
      `checked`. */
  predicate RecordedFor(errors: map<Field, string>, d: ProjectDraft, checked: set<Field>) {
    forall f :: (f in errors <==> f in checked && Violates(d, f)) && (f in errors ==> errors[f] == Message(f))
  }

  /** `validateForm`: the rules run in order, each failing one records its
      message; the form is valid exactly when no error was recorded, that is
      when no rule is violated. */
  method ValidateForm(d: ProjectDraft) returns (valid: bool, errors: map<Field, string>)
    ensures forall f :: f in errors <==> Violates(d, f)
    ensures forall f :: f in errors ==> errors[f] == Message(f)
    ensures valid <==> |errors| == 0
    ensures valid <==> forall f :: !Violates(d, f)
  {
    errors := map[];
    errors := Check(errors, d, Name, {});
    errors := Check(errors, d, Client, {Name});
    errors := Check(errors, d, Budget, {Name, Client});
    errors := Check(errors, d, ExpectedRevenue, {Name, Client, Budget});
    errors := Check(errors, d, StartDate, {Name, Client, Budget, ExpectedRevenue});
    errors := Check(errors, d, EndDate, {Name, Client, Budget, ExpectedRevenue, StartDate});
    errors := Check(errors, d, CostCategories, {Name, Client, Budget, ExpectedRevenue, StartDate, EndDate});
    forall f: Field ensures f in {Name, Client, Budget, ExpectedRevenue, StartDate, EndDate} + {CostCategories} {
      match f
      case Name =>
      case Client =>
      case Budget =>
      case ExpectedRevenue =>
      case StartDate =>
      case EndDate =>
      case CostCategories =>
    }
    valid := |errors| == 0;
    if !valid {
      assert errors.Keys != {};
    } else {
      forall f ensures !Violates(d, f) {
        assert f !in errors;
      }
    }
  }

  /** One rule: when `f` is violated its message is recorded. */
  method Check(errors: map<Field, string>, d: ProjectDraft, f: Field, ghost checked: set<Field>)
    returns (r: map<Field, string>)
    requires RecordedFor(errors, d, checked) && f !in checked
    ensures RecordedFor(r, d, checked + {f})
  {
    if Violates(d, f) {
      r := errors[f := Message(f)];
    } else {
      r := errors;
    }
  }

  /** An end date before the start date is only reported when both dates
      are present, and an end date on or after the start passes. */
  lemma EndDateRule(d: ProjectDraft)
    ensures Violates(d, EndDate) ==> d.endDate != "" && d.startDate != ""
    ensures d.endDate == "" || d.startDate == "" ==> !Violates(d, EndDate)
    ensures Compare(d.startDate, d.endDate) <= 0 ==> !Violates(d, EndDate)
  {
    CompareAntisymmetric(d.startDate, d.endDate);
  }

  predicate NoDuplicates(s: seq<string>) {
    forall i, j :: 0 <= i < j < |s| ==> s[i] != s[j]
  }

  /** `addCategory`: the trimmed entry is appended when it is not blank and
      not already listed; otherwise the list is unchanged. */
  function AddCategory(categories: seq<string>, entry: string): (r: seq<string>)
    ensures |Trim(entry)| > 0 && Trim(entry) !in categories ==> r == categories + [Trim(entry)]
    ensures |Trim(entry)| == 0 || Trim(entry) in categories ==> r == categories
    ensures |Trim(entry)| > 0 ==> Trim(entry) in r
    ensures NoDuplicates(categories) ==> NoDuplicates(r)
  {
    var c := Trim(entry);
    if |c| > 0 && c !in categories then categories + [c] else categories
  }

  /** `removeCategory`: the list without that value, the rest in order. */
  function RemoveCategory(categories: seq<string>, category: string): (r: seq<string>)
    ensures forall x :: x in r <==> x in categories && x != category
    ensures |r| <= |categories|
    decreases |categories|
  {
    if categories == [] then []
    else
      var rest := RemoveCategory(categories[..|categories| - 1], category);
      var last := categories[|categories| - 1];
      if last == category then rest else rest + [last]
  }

  /** In a list without duplicates, removing a listed category cuts out
      exactly its one position; removing an unlisted one changes nothing. */
  lemma {:induction false} RemoveCutsOut(categories: seq<string>, category: string, i: int)
    requires NoDuplicates(categories) && 0 <= i < |categories| && categories[i] == category
    ensures RemoveCategory(categories, category) == categories[..i] + categories[i + 1..]
    decreases |categories|
  {
    var n := |categories|;
    var prefix := categories[..n - 1];
    if i == n - 1 {
      RemoveAbsent(prefix, category);
      assert categories[..i] == prefix;
    } else {
      RemoveCutsOut(prefix, category, i);
      assert categories[i + 1..] == prefix[i + 1..] + [categories[n - 1]];
    }
  }

  lemma {:induction false} RemoveAbsent(categories: seq<string>, category: string)
    requires category !in categories
    ensures RemoveCategory(categories, category) == categories
    decreases |categories|
  {
    if categories != [] {
      var prefix := categories[..|categories| - 1];
      RemoveAbsent(prefix, category);
      assert categories == prefix + [categories[|categories| - 1]];
    }
  }

  /** Removal works piece by piece: the kept values stay in their order,
      each as often as it was listed, with or without duplicates. */
  lemma {:induction false} RemoveCategoryAppend(a: seq<string>, b: seq<string>, category: string)
    ensures RemoveCategory(a + b, category) == RemoveCategory(a, category) + RemoveCategory(b, category)
    decreases |b|
  {
    if b == [] {
      assert a + b == a;
    } else {
      var init := b[..|b| - 1];
      RemoveCategoryAppend(a, init, category);
      assert (a + b)[..|a + b| - 1] == a + init;
    }
  }

  /** Removing a category that was just added restores the list. */
  lemma AddThenRemove(categories: seq<string>, entry: string)
    requires |Trim(entry)| > 0 && Trim(entry) !in categories
    ensures RemoveCategory(AddCategory(categories, entry), Trim(entry)) == categories
  {
    var r := AddCategory(categories, entry);
    RemoveAbsent(categories, Trim(entry));
    assert r[..|r| - 1] == categories;
  }
}
