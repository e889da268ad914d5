/** The chart of accounts of one workspace: the default template, seeding, and the custom
    accounts (internal/accounting/coa_template.go and coa_service.go). An account's id is its
    position; accounts are never deleted. */
module Chart {
  import opened Prelude
  import opened Money
  import opened Rules

  datatype AccountType = Asset | Liability | Equity | Revenue | Expense

  datatype Account = Account(
    code: AccountCode,
    kind: AccountType,
    normal: NormalBalance,
    level: int,
    parent: Option<nat>,
    isSystem: bool,
    isActive: bool)

  datatype TemplateEntry = Entry(
    code: AccountCode,
    kind: AccountType,
    normal: NormalBalance,
    level: int,
    parent: Option<AccountCode>)

  datatype Template = Nil | Cons(head: TemplateEntry, tail: Template)

  function CurrentAssetEntries(): Template {
    Cons(Entry(Std(1, 0), Asset, DebitNormal, 1, None),
    Cons(Entry(Std(1, 1000), Asset, DebitNormal, 2, Some(Std(1, 0))),
    Cons(Entry(Std(1, 1001), Asset, DebitNormal, 3, Some(Std(1, 1000))),
    Cons(Entry(Std(1, 1002), Asset, DebitNormal, 3, Some(Std(1, 1000))),
    Cons(Entry(Std(1, 1003), Asset, DebitNormal, 3, Some(Std(1, 1000))),
    Cons(Entry(Std(1, 1004), Asset, DebitNormal, 3, Some(Std(1, 1000))),
    Cons(Entry(Std(1, 1005), Asset, DebitNormal, 3, Some(Std(1, 1000))),
    Cons(Entry(Std(1, 1006), Asset, DebitNormal, 3, Some(Std(1, 1000))),
    Cons(Entry(Std(1, 1007), Asset, DebitNormal, 3, Some(Std(1, 1000))),
    Cons(Entry(Std(1, 1008), Asset, DebitNormal, 3, Some(Std(1, 1000))),
    Cons(Entry(Std(1, 1009), Asset, DebitNormal, 3, Some(Std(1, 1000))),
    Nil)))))))))))
  }

  function FixedAssetEntries(): Template {
    Cons(Entry(Std(1, 2000), Asset, DebitNormal, 2, Some(Std(1, 0))),
    Cons(Entry(Std(1, 2001), Asset, DebitNormal, 3, Some(Std(1, 2000))),
    Cons(Entry(Std(1, 2002), Asset, DebitNormal, 3, Some(Std(1, 2000))),
    Cons(Entry(Std(1, 2003), Asset, DebitNormal, 3, Some(Std(1, 2000))),
    Cons(Entry(Std(1, 2004), Asset, DebitNormal, 3, Some(Std(1, 2000))),
    Cons(Entry(Std(1, 2099), Asset, CreditNormal, 3, Some(Std(1, 2000))),
    Nil))))))
  }

  function LiabilityEntries(): Template {
    Cons(Entry(Std(2, 0), Liability, CreditNormal, 1, None),
    Cons(Entry(Std(2, 1000), Liability, CreditNormal, 2, Some(Std(2, 0))),
    Cons(Entry(Std(2, 1001), Liability, CreditNormal, 3, Some(Std(2, 1000))),
    Cons(Entry(Std(2, 1002), Liability, CreditNormal, 3, Some(Std(2, 1000))),
    Cons(Entry(Std(2, 1003), Liability, CreditNormal, 3, Some(Std(2, 1000))),
    Cons(Entry(Std(2, 1004), Liability, CreditNormal, 3, Some(Std(2, 1000))),
    Cons(Entry(Std(2, 1005), Liability, CreditNormal, 3, Some(Std(2, 1000))),
    Cons(Entry(Std(2, 1006), Liability, CreditNormal, 3, Some(Std(2, 1000))),
    Cons(Entry(Std(2, 1007), Liability, CreditNormal, 3, Some(Std(2, 1000))),
    Cons(Entry(Std(2, 2000), Liability, CreditNormal, 2, Some(Std(2, 0))),
    Cons(Entry(Std(2, 2001), Liability, CreditNormal, 3, Some(Std(2, 2000))),
    Nil)))))))))))
  }

  function EquityEntries(): Template {
    Cons(Entry(Std(3, 0), Equity, CreditNormal, 1, None),
    Cons(Entry(Std(3, 1001), Equity, CreditNormal, 2, Some(Std(3, 0))),
    Cons(Entry(Std(3, 1002), Equity, DebitNormal, 2, Some(Std(3, 0))),
    Cons(Entry(Std(3, 1003), Equity, CreditNormal, 2, Some(Std(3, 0))),
    Cons(Entry(Std(3, 1004), Equity, CreditNormal, 2, Some(Std(3, 0))),
    Nil)))))
  }

  function RevenueEntries(): Template {
    Cons(Entry(Std(4, 0), Revenue, CreditNormal, 1, None),
    Cons(Entry(Std(4, 1001), Revenue, CreditNormal, 2, Some(Std(4, 0))),
    Cons(Entry(Std(4, 1002), Revenue, CreditNormal, 2, Some(Std(4, 0))),
    Cons(Entry(Std(4, 1003), Revenue, DebitNormal, 2, Some(Std(4, 0))),
    Cons(Entry(Std(4, 1004), Revenue, DebitNormal, 2, Some(Std(4, 0))),
    Cons(Entry(Std(4, 2001), Revenue, CreditNormal, 2, Some(Std(4, 0))),
    Cons(Entry(Std(4, 2002), Revenue, CreditNormal, 2, Some(Std(4, 0))),
    Nil)))))))
  }

  function OperatingExpenseEntries(): Template {
    Cons(Entry(Std(5, 0), Expense, DebitNormal, 1, None),
    Cons(Entry(Std(5, 1000), Expense, DebitNormal, 2, Some(Std(5, 0))),
    Cons(Entry(Std(5, 1001), Expense, DebitNormal, 3, Some(Std(5, 1000))),
    Cons(Entry(Std(5, 1002), Expense, DebitNormal, 3, Some(Std(5, 1000))),
    Cons(Entry(Std(5, 1003), Expense, DebitNormal, 3, Some(Std(5, 1000))),
    Cons(Entry(Std(5, 1004), Expense, DebitNormal, 3, Some(Std(5, 1000))),
    Cons(Entry(Std(5, 1005), Expense, DebitNormal, 3, Some(Std(5, 1000))),
    Cons(Entry(Std(5, 1006), Expense, DebitNormal, 3, Some(Std(5, 1000))),
    Cons(Entry(Std(5, 1007), Expense, DebitNormal, 3, Some(Std(5, 1000))),
    Cons(Entry(Std(5, 1008), Expense, DebitNormal, 3, Some(Std(5, 1000))),
    Cons(Entry(Std(5, 1009), Expense, DebitNormal, 3, Some(Std(5, 1000))),
    Cons(Entry(Std(5, 1010), Expense, DebitNormal, 3, Some(Std(5, 1000))),
    Cons(Entry(Std(5, 1011), Expense, DebitNormal, 3, Some(Std(5, 1000))),
    Cons(Entry(Std(5, 1012), Expense, DebitNormal, 3, Some(Std(5, 1000))),
    Nil))))))))))))))
  }

  function OtherExpenseEntries(): Template {
    Cons(Entry(Std(5, 2000), Expense, DebitNormal, 2, Some(Std(5, 0))),
    Cons(Entry(Std(5, 2001), Expense, DebitNormal, 3, Some(Std(5, 2000))),
    Cons(Entry(Std(5, 2002), Expense, DebitNormal, 3, Some(Std(5, 2000))),
    Cons(Entry(Std(5, 2003), Expense, DebitNormal, 3, Some(Std(5, 2000))),
    Cons(Entry(Std(5, 2004), Expense, DebitNormal, 3, Some(Std(5, 2000))),
    Cons(Entry(Std(5, 3000), Expense, DebitNormal, 2, Some(Std(5, 0))),
    Cons(Entry(Std(5, 3001), Expense, DebitNormal, 3, Some(Std(5, 3000))),
    Cons(Entry(Std(5, 3002), Expense, CreditNormal, 3, Some(Std(5, 3000))),
    Cons(Entry(Std(5, 9001), Expense, DebitNormal, 2, Some(Std(5, 0))),
    Nil)))))))))
  }

  function Append(a: Template, b: Template): Template
    decreases a
  {
    match a
    case Nil => b
    case Cons(e, rest) => Cons(e, Append(rest, b))
  }

  /** The template, section by section in the order it lists them. */
  function DefaultTemplate(): Template {
    Append(CurrentAssetEntries(),
    Append(FixedAssetEntries(),
    Append(LiabilityEntries(),
    Append(EquityEntries(),
    Append(RevenueEntries(),
    Append(OperatingExpenseEntries(), OtherExpenseEntries()))))))
  }

  datatype ChartError =
    | AlreadySeeded | ParentCodeMissing | CodeExists
    | InvalidType | InvalidParent | AccountNotFound | AccountIsSystem

  /** The account a unique (workspace, code) index finds. */
  function FindByCode(accounts: seq<Account>, code: AccountCode): (r: Option<nat>)
    ensures r.Some? ==> r.value < |accounts| && accounts[r.value].code == code
    ensures r.None? <==> forall i :: 0 <= i < |accounts| ==> accounts[i].code != code
  {
    if accounts == [] then None
    else
      var last := |accounts| - 1;
      var earlier := FindByCode(accounts[..last], code);
      if earlier.Some? then earlier
      else if accounts[last].code == code then Some(last) else None
  }

  lemma FindAfterAppend(accounts: seq<Account>, x: Account, code: AccountCode)
    ensures FindByCode(accounts, code).Some? ==> FindByCode(accounts + [x], code) == FindByCode(accounts, code)
    ensures FindByCode(accounts, code).None? && x.code == code ==> FindByCode(accounts + [x], code) == Some(|accounts|)
  {
    assert (accounts + [x])[..|accounts|] == accounts;
  }

  /** What one round of the seeding loop inserts. */
  function SeedEntry(accounts: seq<Account>, e: TemplateEntry): Result<Account, ChartError> {
    var parent := if e.parent.Some? then FindByCode(accounts, e.parent.value) else None;
    if e.parent.Some? && parent.None? then Err(ParentCodeMissing)
    else if FindByCode(accounts, e.code).Some? then Err(CodeExists)
    else Ok(Account(e.code, e.kind, e.normal, e.level, parent, true, true))
  }

  function SeedFrom(rest: Template, accounts: seq<Account>): Result<seq<Account>, ChartError> {
    match rest
    case Nil => Ok(accounts)
    case Cons(e, tail) =>
      match SeedEntry(accounts, e)
      case Err(error) => Err(error)
      case Ok(account) => SeedFrom(tail, accounts + [account])
  }

  datatype ParentField = NoParent | Unparsable | ParentId(id: nat)

  datatype ChartOp =
    | Seed
    | CreateAccount(code: AccountCode, kind: Option<AccountType>, parent: ParentField)
    | UpdateAccount(id: nat, newParent: ParentField, active: Option<bool>)

  function SeedChart(accounts: seq<Account>): Result<seq<Account>, ChartError> {
    if |accounts| > 0 then Err(AlreadySeeded) else SeedFrom(DefaultTemplate(), [])
  }

  function DefaultNormal(kind: AccountType): NormalBalance {
    if kind == Liability || kind == Equity || kind == Revenue then CreditNormal else DebitNormal
  }

  function NewAccount(accounts: seq<Account>, code: AccountCode, kind: Option<AccountType>, parent: ParentField)
    : Result<Account, ChartError>
  {
    if kind.None? then Err(InvalidType)
    else if parent.Unparsable? then Err(InvalidParent)
    else if parent.ParentId? && parent.id >= |accounts| then Err(InvalidParent)
    else if FindByCode(accounts, code).Some? then Err(CodeExists)
    else
      var (link, level) := if parent.ParentId? then (Some(parent.id), accounts[parent.id].level + 1) else (None, 1);
      Ok(Account(code, kind.value, DefaultNormal(kind.value), level, link, false, true))
  }

  /** An update replaces the parent link, even by nothing, and never touches the level; an
      omitted activity flag switches the account back on. */
  function Updated(accounts: seq<Account>, id: nat, parent: ParentField, active: Option<bool>)
    : Result<Account, ChartError>
  {
    if id >= |accounts| then Err(AccountNotFound)
    else if accounts[id].isSystem then Err(AccountIsSystem)
    else if parent.Unparsable? then Err(InvalidParent)
    else if parent.ParentId? && parent.id >= |accounts| then Err(InvalidParent)
    else
      Ok(accounts[id].(
        parent := if parent.ParentId? then Some(parent.id) else None,
        isActive := if active.Some? then active.value else true))
  }

  /** The chart after an operation; a failed one is rolled back. */
  function Apply(accounts: seq<Account>, op: ChartOp): seq<Account> {
    match op
    case Seed =>
      var r := SeedChart(accounts);
      if r.Ok? then r.value else accounts
    case CreateAccount(code, kind, parent) =>
      var r := NewAccount(accounts, code, kind, parent);
      if r.Ok? then accounts + [r.value] else accounts
    case UpdateAccount(id, parent, active) =>
      var r := Updated(accounts, id, parent, active);
      if r.Ok? then accounts[id := r.value] else accounts
  }

  function ApplyAll(accounts: seq<Account>, ops: seq<ChartOp>): seq<Account> {
    if ops == [] then accounts else Apply(ApplyAll(accounts, ops[..|ops| - 1]), ops[|ops| - 1])
  }

  /** The seeding loop, with its map from codes to the ids just created. */
  method InsertAll(template: Template) returns (r: Result<seq<Account>, ChartError>)
    ensures r == SeedFrom(template, [])
  {
    var rest := template;
    var codeToId: map<AccountCode, nat> := map[];
    var inserted: seq<Account> := [];
    while rest.Cons?
      invariant SeedFrom(template, []) == SeedFrom(rest, inserted)
      invariant forall c :: c in codeToId <==> FindByCode(inserted, c).Some?
      invariant forall c :: c in codeToId ==> FindByCode(inserted, c) == Some(codeToId[c])
      decreases rest
    {
      var e := rest.head;
      var parent: Option<nat> := None;
      if e.parent.Some? {
        if e.parent.value !in codeToId {
          return Err(ParentCodeMissing);
        }
        parent := Some(codeToId[e.parent.value]);
      }
      if FindByCode(inserted, e.code).Some? {
        return Err(CodeExists);
      }
      var account := Account(e.code, e.kind, e.normal, e.level, parent, true, true);
      forall c { FindAfterAppend(inserted, account, c); }
      codeToId := codeToId[e.code := |inserted|];
      inserted := inserted + [account];
      rest := rest.tail;
    }
    r := Ok(inserted);
  }

  /** The stored chart, updated in place. */
  class ChartStore {
    var accounts: seq<Account>

    constructor ()
      ensures accounts == []
    {
      accounts := [];
    }

    method SeedDefaultCoa() returns (r: Result<(), ChartError>)
      modifies this
      ensures accounts == Apply(old(accounts), Seed)
      ensures r.Ok? <==> SeedChart(old(accounts)).Ok?
      ensures r.Err? ==> SeedChart(old(accounts)) == Err(r.error)
    {
      if |accounts| > 0 {
        return Err(AlreadySeeded);
      }
      var inserted := InsertAll(DefaultTemplate());
      if inserted.Err? {
        return Err(inserted.error);
      }
      accounts := inserted.value;
      r := Ok(());
    }

    method CreateCustomAccount(code: AccountCode, kind: Option<AccountType>, parent: ParentField)
      returns (r: Result<Account, ChartError>)
      modifies this
      ensures accounts == Apply(old(accounts), CreateAccount(code, kind, parent))
      ensures r == NewAccount(old(accounts), code, kind, parent)
      ensures r == Err(InvalidType) <==> kind == None
      ensures r == Err(CodeExists) ==> exists i :: 0 <= i < |accounts| && accounts[i].code == code
    {
      if kind.None? {
        return Err(InvalidType);
      }
      var normal := DebitNormal;
      if kind.value == Liability || kind.value == Equity || kind.value == Revenue {
        normal := CreditNormal;
      }
      var link: Option<nat>, level := None, 1;
      if parent.Unparsable? {
        return Err(InvalidParent);
      }
      if parent.ParentId? {
        if parent.id >= |accounts| {
          return Err(InvalidParent);
        }
        link, level := Some(parent.id), accounts[parent.id].level + 1;
      }
      if FindByCode(accounts, code).Some? {
        return Err(CodeExists);
      }
      var account := Account(code, kind.value, normal, level, link, false, true);
      accounts := accounts + [account];
      r := Ok(account);
    }

    method UpdateCustomAccount(id: nat, parent: ParentField, active: Option<bool>)
      returns (r: Result<(), ChartError>)
      modifies this
      ensures accounts == Apply(old(accounts), UpdateAccount(id, parent, active))
      ensures r.Ok? <==> Updated(old(accounts), id, parent, active).Ok?
      ensures r.Err? ==> Updated(old(accounts), id, parent, active) == Err(r.error)
      ensures r == Err(AccountNotFound) <==> id >= |accounts|
      ensures r == Err(AccountIsSystem) <==> id < |accounts| && old(accounts)[id].isSystem
    {
      if id >= |accounts| {
        return Err(AccountNotFound);
      }
      if accounts[id].isSystem {
        return Err(AccountIsSystem);
      }
      if parent.Unparsable? || (parent.ParentId? && parent.id >= |accounts|) {
        return Err(InvalidParent);
      }
      var link := if parent.ParentId? then Some(parent.id) else None;
      var flag := true;
      if active.Some? {
        flag := active.value;
      }
      accounts := accounts[id := accounts[id].(parent := link, isActive := flag)];
      r := Ok(());
    }
  }
}
