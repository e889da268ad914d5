/** How the template numbers its accounts, and what custom accounts take over from it. */
module Numbering {
  import opened Prelude
  import opened Money
  import opened Rules
  import opened Chart
  import opened ChartRuns

  // ----- The template's numbering -----

  /** The leading digit of a type's codes. */
  function GroupOf(kind: AccountType): nat {
    match kind
    case Asset => 1
    case Liability => 2
    case Equity => 3
    case Revenue => 4
    case Expense => 5
  }

  predicate Numbered(e: TemplateEntry) {
    match e.code
    case Std(group, number) =>
      group == GroupOf(e.kind) && (number == 0 <==> e.level == 1) && (e.level == 1 ==> e.normal == DefaultNormal(e.kind))
    case Custom(_) => false
  }

  predicate AllNumbered(t: Template)
    decreases t
  {
    t.Cons? ==> Numbered(t.head) && AllNumbered(t.tail)
  }

  lemma {:induction false} NumberedAppend(a: Template, b: Template)
    requires AllNumbered(a) && AllNumbered(b)
    ensures AllNumbered(Append(a, b))
    decreases a
  {
    if a.Cons? {
      NumberedAppend(a.tail, b);
    }
  }

  lemma {:induction false} NumberedEntry(t: Template, code: AccountCode)
    requires AllNumbered(t) && EntryOf(t, code).Some?
    ensures Numbered(EntryOf(t, code).value)
    decreases t
  {
    if t.head.code != code {
      NumberedEntry(t.tail, code);
    }
  }

  lemma AssetsNumbered()
    ensures AllNumbered(Append(CurrentAssetEntries(), FixedAssetEntries()))
  {
    NumberedAppend(CurrentAssetEntries(), FixedAssetEntries());
  }

  lemma LiabilitiesNumbered()
    ensures AllNumbered(Append(LiabilityEntries(), EquityEntries()))
  {
    NumberedAppend(LiabilityEntries(), EquityEntries());
  }

  lemma RevenueNumbered()
    ensures AllNumbered(RevenueEntries())
  {
  }

  lemma ExpensesNumbered()
    ensures AllNumbered(Append(OperatingExpenseEntries(), OtherExpenseEntries()))
  {
    NumberedAppend(OperatingExpenseEntries(), OtherExpenseEntries());
  }

  /** Every template entry is numbered by its type, and the entries of level one are the types'
      roots, on the normal side of the type. */
  lemma TemplateNumbered()
    ensures AllNumbered(DefaultTemplate())
  {
    AssetsNumbered();
    LiabilitiesNumbered();
    RevenueNumbered();
    ExpensesNumbered();
    NumberedAppend(RevenueEntries(), Append(OperatingExpenseEntries(), OtherExpenseEntries()));
    NumberedAppend(EquityEntries(), IncomeEntries());
    NumberedAppend(LiabilityEntries(), Append(EquityEntries(), IncomeEntries()));
    NumberedAppend(FixedAssetEntries(), Append(LiabilityEntries(), Append(EquityEntries(), IncomeEntries())));
    NumberedAppend(CurrentAssetEntries(), Append(FixedAssetEntries(),
      Append(LiabilityEntries(), Append(EquityEntries(), IncomeEntries()))));
  }

  // ----- Custom accounts -----

  /** The template's account of level one for a type. */
  function RootOfType(kind: AccountType): Option<TemplateEntry> {
    EntryOf(DefaultTemplate(), Std(GroupOf(kind), 0))
  }

  lemma RootsAreThere(kind: AccountType)
    ensures InTemplate(Std(GroupOf(kind), 0))
  {
    match kind
    case Asset => InAssets(Std(1, 0));
    case Liability => InLiabilities(Std(2, 0));
    case Equity => InEquity(Std(3, 0));
    case Revenue => InRevenue(Std(4, 0));
    case Expense => InOperating(Std(5, 0));
  }

  /** It has that type and level, and its side is the one given to custom accounts of the type. */
  lemma RootsOfTypes(kind: AccountType)
    ensures var root := RootOfType(kind);
            root.Some? && (root.value.kind, root.value.level, root.value.normal) == (kind, 1, DefaultNormal(kind))
  {
    RootsAreThere(kind);
    TemplateNumbered();
    NumberedEntry(DefaultTemplate(), Std(GroupOf(kind), 0));
    EntryOfCode(DefaultTemplate(), Std(GroupOf(kind), 0));
  }

  predicate ParentOk(accounts: seq<Account>, parent: ParentField) {
    parent.NoParent? || (parent.ParentId? && parent.id < |accounts|)
  }

  /** A custom account is added exactly when its type is known, its code is new and a given parent
      exists. */
  lemma AccountAddedIff(accounts: seq<Account>, code: AccountCode, kind: Option<AccountType>, parent: ParentField)
    ensures Apply(accounts, CreateAccount(code, kind, parent)) != accounts <==>
            kind.Some? && ParentOk(accounts, parent) && forall i :: 0 <= i < |accounts| ==> accounts[i].code != code
  {
    var r := NewAccount(accounts, code, kind, parent);
    assert r.Ok? ==> |accounts + [r.value]| == |accounts| + 1;
  }

  /** It stands at the end of the chart, on the normal side of its type's root, active, one level
      below its parent. */
  lemma AddedAccount(accounts: seq<Account>, code: AccountCode, kind: Option<AccountType>, parent: ParentField)
    requires Apply(accounts, CreateAccount(code, kind, parent)) != accounts
    ensures var after := Apply(accounts, CreateAccount(code, kind, parent));
            && |after| == |accounts| + 1 && after[..|accounts|] == accounts
            && RootOfType(kind.value).Some?
            && var a := after[|accounts|];
               && a.code == code && a.kind == kind.value && a.normal == RootOfType(kind.value).value.normal
               && a.isActive && !a.isSystem
               && (if parent.ParentId? then a.parent == Some(parent.id) && a.level == accounts[parent.id].level + 1
                   else a.parent == None && a.level == 1)
  {
    RootsOfTypes(kind.value);
  }

  /** An update is refused exactly for a missing or system account or a missing parent. It writes the
      parent it was given, none when it was given none, and switches the account off only when told
      to; nothing else changes. */
  lemma AccountUpdated(accounts: seq<Account>, id: nat, parent: ParentField, active: Option<bool>)
    ensures Updated(accounts, id, parent, active).Ok? <==> id < |accounts| && !accounts[id].isSystem && ParentOk(accounts, parent)
    ensures var after := Apply(accounts, UpdateAccount(id, parent, active));
            if id < |accounts| && !accounts[id].isSystem && ParentOk(accounts, parent)
            then after == accounts[id := accounts[id].(parent := if parent.ParentId? then Some(parent.id) else None,
                                                       isActive := active != Some(false))]
            else after == accounts
  {
  }
}
