/** The category whitelists, the rule tables that turn a category into journal pairs, and the
    categorizer (internal/accounting/constants.go, rules.go and categorizer.go). */
module Rules {
  import opened Prelude

  datatype TxType = CashIn | CashOut | Sales | Purchase | Journal | Reversal

  datatype InputMode = Simple | Advanced | Ocr

  /** The known category names; every other string is `Unlisted`. */
  datatype Category =
    // CASH_IN
    | PendapatanUsaha | PendapatanJasa | PendapatanBunga | PiutangDibayar
    | HutangDiterima | ModalDisetor | UangMukaDiterima | PendapatanLain
    // CASH_OUT
    | BebanGaji | BebanSewa | BebanListrik | BebanTelepon | BebanTransport | BebanMakan
    | BebanPerlengkapan | BebanAsuransi | BebanAdmin | BebanBank | BebanPemasaran
    | BebanBunga | BebanPajak | PembelianBarang | BayarHutang | BayarPajak
    | UangMukaBeli | Prive | BebanLain
    // SALES
    | PenjualanBarangTunai | PenjualanBarangKredit | PenjualanJasaTunai
    | PenjualanJasaKredit | PenjualanDenganPpn
    // PURCHASE
    | PembelianBarangTunai | PembelianBarangKredit | PembelianJasaTunai
    | PembelianJasaKredit | PembelianDenganPpn
    // SPECIAL
    | DiskonPenjualan | ReturPenjualan | ReturPembelian
    | Unlisted(text: string)

  /** `Std(1, 1001)` is the code "1-1001"; a code of any other form is `Custom`. */
  datatype AccountCode = Std(group: nat, number: nat) | Custom(text: string)

  const KAS := Std(1, 1001)
  const BANK := Std(1, 1002)
  const PIUTANG := Std(1, 1003)
  const PERSEDIAAN := Std(1, 1004)
  const PPN_MASUKAN := Std(1, 1008)
  const HUTANG := Std(2, 1001)
  const PPN_KELUARAN := Std(2, 1005)
  const HPP := Std(5, 3001)

  datatype JournalRule = Pair(debit: AccountCode, credit: AccountCode)

  datatype MultiJournalRule = Rule(primary: JournalRule, additional: seq<JournalRule>) {
    function Pairs(): seq<JournalRule> { [primary] + additional }
  }

  predicate HasWhitelist(t: TxType) {
    !t.Journal? && !t.Reversal?
  }

  predicate IsSpecial(c: Category) {
    c.DiskonPenjualan? || c.ReturPenjualan? || c.ReturPembelian?
  }

  predicate IsValidCategoryForType(c: Category, t: TxType) {
    match t
    case CashIn =>
      c.PendapatanUsaha? || c.PendapatanJasa? || c.PendapatanBunga?
      || c.PiutangDibayar? || c.HutangDiterima? || c.ModalDisetor?
      || c.UangMukaDiterima? || c.PendapatanLain?
    case CashOut =>
      c.BebanGaji? || c.BebanSewa? || c.BebanListrik? || c.BebanTelepon?
      || c.BebanTransport? || c.BebanMakan? || c.BebanPerlengkapan?
      || c.BebanAsuransi? || c.BebanAdmin? || c.BebanBank? || c.BebanPemasaran?
      || c.BebanBunga? || c.BebanPajak? || c.PembelianBarang? || c.BayarHutang?
      || c.BayarPajak? || c.UangMukaBeli? || c.Prive? || c.BebanLain?
    case Sales =>
      c.PenjualanBarangTunai? || c.PenjualanBarangKredit?
      || c.PenjualanJasaTunai? || c.PenjualanJasaKredit?
      || c.PenjualanDenganPpn?
    case Purchase =>
      c.PembelianBarangTunai? || c.PembelianBarangKredit?
      || c.PembelianJasaTunai? || c.PembelianJasaKredit?
      || c.PembelianDenganPpn?
    case _ => false
  }

  function CashInRule(c: Category): Option<JournalRule> {
    match c
    case PendapatanUsaha => Some(Pair(KAS, Std(4, 1001)))
    case PendapatanJasa => Some(Pair(KAS, Std(4, 1002)))
    case PendapatanBunga => Some(Pair(BANK, Std(4, 2001)))
    case PiutangDibayar => Some(Pair(KAS, PIUTANG))
    case HutangDiterima => Some(Pair(KAS, HUTANG))
    case ModalDisetor => Some(Pair(KAS, Std(3, 1001)))
    case UangMukaDiterima => Some(Pair(KAS, Std(2, 1006)))
    case PendapatanLain => Some(Pair(KAS, Std(4, 2002)))
    case _ => None
  }

  function CashOutRule(c: Category): Option<JournalRule> {
    match c
    case BebanGaji => Some(Pair(Std(5, 1001), KAS))
    case BebanSewa => Some(Pair(Std(5, 1002), KAS))
    case BebanListrik => Some(Pair(Std(5, 1003), KAS))
    case BebanTelepon => Some(Pair(Std(5, 1004), KAS))
    case BebanTransport => Some(Pair(Std(5, 1005), KAS))
    case BebanMakan => Some(Pair(Std(5, 1006), KAS))
    case BebanPerlengkapan => Some(Pair(Std(5, 1007), KAS))
    case BebanAsuransi => Some(Pair(Std(5, 1009), KAS))
    case BebanAdmin => Some(Pair(Std(5, 1010), KAS))
    case BebanBank => Some(Pair(Std(5, 1011), BANK))
    case BebanPemasaran => Some(Pair(Std(5, 1012), KAS))
    case BebanBunga => Some(Pair(Std(5, 2001), KAS))
    case BebanPajak => Some(Pair(Std(5, 2002), KAS))
    case PembelianBarang => Some(Pair(PERSEDIAAN, KAS))
    case BayarHutang => Some(Pair(HUTANG, KAS))
    case BayarPajak => Some(Pair(Std(2, 1003), KAS))
    case UangMukaBeli => Some(Pair(Std(1, 1007), KAS))
    case Prive => Some(Pair(Std(3, 1002), KAS))
    case BebanLain => Some(Pair(Std(5, 9001), KAS))
    case _ => None
  }

  function SalesRule(c: Category): Option<MultiJournalRule> {
    match c
    case PenjualanBarangTunai => Some(Rule(Pair(KAS, Std(4, 1001)), [Pair(HPP, PERSEDIAAN)]))
    case PenjualanBarangKredit => Some(Rule(Pair(PIUTANG, Std(4, 1001)), [Pair(HPP, PERSEDIAAN)]))
    case PenjualanJasaTunai => Some(Rule(Pair(KAS, Std(4, 1002)), []))
    case PenjualanJasaKredit => Some(Rule(Pair(PIUTANG, Std(4, 1002)), []))
    case PenjualanDenganPpn => Some(Rule(Pair(KAS, Std(4, 1001)), [Pair(KAS, PPN_KELUARAN)]))
    case _ => None
  }

  function PurchaseRule(c: Category): Option<MultiJournalRule> {
    match c
    case PembelianBarangTunai => Some(Rule(Pair(PERSEDIAAN, KAS), []))
    case PembelianBarangKredit => Some(Rule(Pair(PERSEDIAAN, HUTANG), []))
    case PembelianJasaTunai => Some(Rule(Pair(Std(5, 9001), KAS), []))
    case PembelianJasaKredit => Some(Rule(Pair(Std(5, 9001), HUTANG), []))
    case PembelianDenganPpn => Some(Rule(Pair(PERSEDIAAN, KAS), [Pair(PPN_MASUKAN, KAS)]))
    case _ => None
  }

  function SpecialRule(c: Category): Option<MultiJournalRule> {
    match c
    case DiskonPenjualan => Some(Rule(Pair(Std(4, 1003), PIUTANG), []))
    case ReturPenjualan => Some(Rule(Pair(Std(4, 1004), PIUTANG), [Pair(PERSEDIAAN, HPP)]))
    case ReturPembelian => Some(Rule(Pair(HUTANG, Std(5, 3002)), []))
    case _ => None
  }

  function OnePair(r: Option<JournalRule>): Option<MultiJournalRule> {
    if r.Some? then Some(Rule(r.value, [])) else None
  }

  function OwnRule(t: TxType, c: Category): Option<MultiJournalRule> {
    match t
    case CashIn => OnePair(CashInRule(c))
    case CashOut => OnePair(CashOutRule(c))
    case Sales => SalesRule(c)
    case Purchase => PurchaseRule(c)
    case _ => None
  }

  /** The rule of the type's own table, otherwise the special rule of the category. */
  function GetJournalRule(t: TxType, c: Category): Option<MultiJournalRule> {
    if OwnRule(t, c).Some? then OwnRule(t, c) else SpecialRule(c)
  }

  function GetFallbackCategory(t: TxType): Category {
    match t
    case CashIn => PendapatanLain
    case CashOut => BebanLain
    case Sales => PenjualanBarangTunai
    case Purchase => PembelianBarangTunai
    case _ => BebanLain
  }

  predicate IsPpnCategory(c: Category) {
    c == PenjualanDenganPpn || c == PembelianDenganPpn
  }

  predicate IsPpnPair(p: JournalRule) {
    p == Pair(PPN_MASUKAN, KAS) || p == Pair(KAS, PPN_KELUARAN)
  }

  /** What the AI client does: it may be missing, the sanitized description may be empty, the
      call may fail, or it may answer anything. */
  datatype AiAnswer = NoClient | NothingToAsk | CallFailed | Answer(category: Category, confidence: real)

  const MIN_CONFIDENCE: real := 0.7

  function Categorize(t: TxType, ai: AiAnswer): (r: (Category, bool)) {
    match ai
    case Answer(c, confidence) =>
      if !IsValidCategoryForType(c, t) then (GetFallbackCategory(t), true)
      else if confidence < MIN_CONFIDENCE then (GetFallbackCategory(t), true)
      else (c, false)
    case _ => (GetFallbackCategory(t), true)
  }

  lemma OwnRuleIff(t: TxType, c: Category)
    ensures OwnRule(t, c).Some? <==> IsValidCategoryForType(c, t)
  {
    match t {
      case CashIn =>
      case CashOut =>
      case Sales =>
      case Purchase =>
      case _ =>
    }
  }

  /** A category has a rule exactly when its type whitelists it or it is one of the three
      special categories, which no whitelist holds. */
  lemma RuleExistsIff(t: TxType, c: Category)
    ensures GetJournalRule(t, c).Some? <==> IsValidCategoryForType(c, t) || IsSpecial(c)
    ensures !(IsValidCategoryForType(c, t) && IsSpecial(c))
  {
    OwnRuleIff(t, c);
    assert SpecialRule(c).Some? <==> IsSpecial(c);
  }

  /** Whatever the AI answers, the chosen category is whitelisted exactly for the four types
      that have a whitelist. */
  lemma CategorizeAlwaysListed(t: TxType, ai: AiAnswer)
    ensures IsValidCategoryForType(Categorize(t, ai).0, t) <==> HasWhitelist(t)
    ensures GetJournalRule(t, Categorize(t, ai).0).Some? <==> HasWhitelist(t)
    ensures !Categorize(t, ai).1 ==> ai.Answer? && ai.confidence >= MIN_CONFIDENCE && ai.category == Categorize(t, ai).0
  {
    RuleExistsIff(t, Categorize(t, ai).0);
  }

  /** The AI's category is used if and only if the type whitelists it and its confidence is at least
      0.7; otherwise it is the fallback: other income, other expenses, or goods traded for cash. */
  lemma CategorizeIff(t: TxType, ai: AiAnswer)
    ensures var good := ai.Answer? && IsValidCategoryForType(ai.category, t) && ai.confidence >= 0.7;
            var fallback := if t == CashIn then PendapatanLain else if t == Sales then PenjualanBarangTunai
                            else if t == Purchase then PembelianBarangTunai else BebanLain;
            Categorize(t, ai) == if good then (ai.category, false) else (fallback, true)
  {
  }

  /** The tax pair appears in a rule exactly when the category is one of the two PPN
      categories; there it is the only additional pair. */
  lemma {:induction false} PpnPairIff(t: TxType, c: Category)
    requires GetJournalRule(t, c).Some?
    ensures var r := GetJournalRule(t, c).value;
            && !IsPpnPair(r.primary)
            && ((exists p :: p in r.additional && IsPpnPair(p)) <==> IsPpnCategory(c))
            && (IsPpnCategory(c) ==> |r.additional| == 1 && IsPpnPair(r.additional[0]))
            && |r.additional| <= 1
  {
    var r := GetJournalRule(t, c).value;
    if OwnRule(t, c).Some? {
      OwnPpnPairIff(t, c);
    }
    if |r.additional| > 0 {
      assert r.additional[0] in r.additional;
    }
  }

  lemma {:induction false} OwnPpnPairIff(t: TxType, c: Category)
    requires OwnRule(t, c).Some?
    ensures var r := OwnRule(t, c).value;
            && !IsPpnPair(r.primary)
            && |r.additional| <= 1
            && (IsPpnCategory(c) <==> |r.additional| == 1 && IsPpnPair(r.additional[0]))
  {
    match t {
      case CashIn =>
      case CashOut => CashOutNoPpn(c);
      case Sales =>
      case Purchase =>
      case _ =>
    }
  }

  lemma CashOutNoPpn(c: Category)
    requires CashOutRule(c).Some?
    ensures !IsPpnPair(CashOutRule(c).value) && !IsPpnCategory(c)
  {
  }
}
