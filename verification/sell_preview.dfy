/** The tax preview that verification checks, and the debit a wallet needs for a taxed sale. */
module SellPreview {
  import opened Wrappers

  const BPS: int := 10_000

  /** Amount and tax: what a sale of that economic amount takes from the seller. */
  function Debit(economic: int, bps: int): int { economic + economic * bps / BPS }

  /** `fail_closed_sell_debit`: nothing for nothing, and a negative rate counts as zero. */
  function FailClosedSellDebit(amount: int, bps: int): int {
    if amount <= 0 then 0 else Debit(amount, if bps > 0 then bps else 0)
  }

  datatype Preview = Preview(gross: int, economic: int, tax: int, net: int)

  /** The check of a sell preview. */
  predicate SellOk(p: Preview, bps: int) {
    && p.economic >= 0 && p.tax >= 0 && p.net >= 0
    && p.tax == p.economic * bps / BPS && p.net == p.economic && p.economic + p.tax <= p.gross
    && (p.economic == p.gross || p.economic + 1 + (p.economic + 1) * bps / BPS > p.gross)
  }

  /** The largest economic amount a gross amount can fund. */
  function Fundable(gross: int, bps: int): int
    requires bps >= 0
  {
    ((gross + 1) * BPS - 1) / (BPS + bps)
  }

  lemma MulNonNegative(a: int, b: int)
    requires a >= 0 && b >= 0
    ensures a * b >= 0
  {
  }

  lemma DivideAtMost(n: int, d: int, q: int)
    requires d > 0
    ensures n / d >= q <==> n >= q * d
  {
    var p := n / d;
    assert n == p * d + n % d;
    if p >= q {
      MulNonNegative(p - q, d);
      assert (p - q) * d == p * d - q * d;
    } else {
      MulNonNegative(q - 1 - p, d);
      assert (q - 1 - p) * d == q * d - d - p * d;
    }
  }

  /** The debit fits a gross amount exactly up to the fundable one: debit and `Fundable` are adjoint. */
  lemma DebitAdjoint(economic: int, gross: int, bps: int)
    requires bps >= 0
    ensures Debit(economic, bps) <= gross <==> economic <= Fundable(gross, bps)
  {
    var d := BPS + bps;
    assert economic * d == economic * BPS + economic * bps;
    DivideAtMost((gross + 1) * BPS - 1, d, economic);
    FloorOfSum(economic, economic * bps);
    DivideAtMost(economic * BPS + economic * bps, BPS, gross + 1);
  }

  lemma FloorOfSum(a: int, b: int)
    ensures (a * BPS + b) / BPS == a + b / BPS
  {
  }

  /** For every gross amount and rate the check accepts exactly one economic amount, the fundable one. */
  lemma SellUnique(p: Preview, bps: int)
    requires bps >= 0 && p.gross >= 0
    ensures SellOk(p, bps) <==>
              p.economic == Fundable(p.gross, bps) && p.tax == p.economic * bps / BPS && p.net == p.economic
  {
    DebitAdjoint(p.economic, p.gross, bps);
    DebitAdjoint(p.economic + 1, p.gross, bps);
    FundableBounds(p.gross, bps);
    if p.economic >= 0 { TaxNonNegative(p.economic, bps); }
    TaxNonNegative(p.gross + 1, bps);
  }

  lemma TaxNonNegative(amount: int, bps: int)
    requires amount >= 0 && bps >= 0
    ensures amount * bps / BPS >= 0
  {
    assert amount * bps >= 0;
  }

  lemma FundableBounds(gross: int, bps: int)
    requires bps >= 0 && gross >= 0
    ensures 0 <= Fundable(gross, bps) <= gross
  {
    DivideAtMost((gross + 1) * BPS - 1, BPS + bps, 0);
    DivideAtMost((gross + 1) * BPS - 1, BPS + bps, gross + 1);
    assert (gross + 1) * (BPS + bps) == (gross + 1) * BPS + (gross + 1) * bps;
    assert (gross + 1) * bps >= 0;
  }

  // ---------------------------------------------------------------- the wallet's debit

  /** The debits a preview names; zero where it names none. */
  datatype Debits = Debits(debit: int, hop: int)

  /** `required_wallet_debit`. */
  function RequiredWalletDebit(preview: Option<Debits>, amount: int, router: bool, bps: int): int {
    if preview.None? then FailClosedSellDebit(amount, bps)
    else
      var p := preview.value;
      if router then p.debit + if p.hop > 0 then p.hop else FailClosedSellDebit(amount, bps) - amount
      else if p.debit > 0 then p.debit else FailClosedSellDebit(amount, bps)
  }

  /**
   Where the preview names no debit of its own, the fail-closed debit is required in full on the pair
   path; on the router path it is, if and only if the named debit covers the amount itself.
   */
  lemma FailsClosedExactly(p: Debits, amount: int, bps: int)
    ensures RequiredWalletDebit(None, amount, true, bps) == RequiredWalletDebit(None, amount, false, bps)
            == FailClosedSellDebit(amount, bps)
    ensures p.debit <= 0 ==> RequiredWalletDebit(Some(p), amount, false, bps) == FailClosedSellDebit(amount, bps)
    ensures p.hop <= 0 ==>
              (RequiredWalletDebit(Some(p), amount, true, bps) >= FailClosedSellDebit(amount, bps) <==>
               p.debit >= amount)
  {
  }

  /** A router preview without numbers asks for the tax alone. */
  lemma RouterPreviewWithoutNumbers()
    ensures RequiredWalletDebit(Some(Debits(0, 0)), 1_000_000, true, 500) == 50_000
    ensures FailClosedSellDebit(1_000_000, 500) == 1_050_000
  {
  }
}
