/** Credit allocation (utils/financialCalculations.ts): which credit notes
    reduce which invoice's recognised revenue, and by how much. */
module Credits {
  import opened Ledger

  /** A credit note counts against invoice `invoiceId` when it is applied and
      names that (non-empty) invoice. */
  predicate CountsAgainst(cn: CreditNote, invoiceId: string) {
    cn.status == CreditNoteStatus.Applied && cn.invoiceId != "" && cn.invoiceId == invoiceId
  }

  /** `m[k] || 0`: a dictionary read where a missing key reads as zero. */
  function Lookup(m: map<string, real>, k: string): real {
    if k in m then m[k] else 0.0
  }

  /** One step of the loop that fills `creditsByInvoice`. */
  function AddCredit(m: map<string, real>, cn: CreditNote): map<string, real> {
    if cn.status == CreditNoteStatus.Applied && cn.invoiceId != "" then
      m[cn.invoiceId := Lookup(m, cn.invoiceId) + cn.amount]
    else
      m
  }

  /** The `creditsByInvoice` dictionary after visiting `notes` in order. */
  function CreditMap(notes: seq<CreditNote>): map<string, real>
    decreases |notes|
  {
    if notes == [] then map[]
    else AddCredit(CreditMap(notes[..|notes| - 1]), notes[|notes| - 1])
  }

  /** Reference definition: the total of the applied credits against one
      invoice. */
  function AppliedCredit(notes: seq<CreditNote>, invoiceId: string): real
    decreases |notes|
  {
    if notes == [] then 0.0
    else
      var cn := notes[|notes| - 1];
      AppliedCredit(notes[..|notes| - 1], invoiceId) + (if CountsAgainst(cn, invoiceId) then cn.amount else 0.0)
  }

  /** The dictionary holds, for every invoice, exactly the sum of the applied
      credit notes that name it; every other note is ignored. */
  lemma {:induction false} CreditMapIsAppliedSum(notes: seq<CreditNote>, invoiceId: string)
    ensures Lookup(CreditMap(notes), invoiceId) == AppliedCredit(notes, invoiceId)
    decreases |notes|
  {
    if notes != [] {
      CreditMapIsAppliedSum(notes[..|notes| - 1], invoiceId);
    }
  }

  /** An invoice id is a key of the dictionary iff some applied note names it. */
  lemma {:induction false} CreditMapKeys(notes: seq<CreditNote>, invoiceId: string)
    ensures invoiceId in CreditMap(notes) <==>
      exists i :: 0 <= i < |notes| && CountsAgainst(notes[i], invoiceId)
    decreases |notes|
  {
    if notes != [] {
      var init := notes[..|notes| - 1];
      CreditMapKeys(init, invoiceId);
      if exists i :: 0 <= i < |init| && CountsAgainst(init[i], invoiceId) {
        var i :| 0 <= i < |init| && CountsAgainst(init[i], invoiceId);
        assert notes[i] == init[i];
      }
      if exists i :: 0 <= i < |notes| && CountsAgainst(notes[i], invoiceId) {
        var i :| 0 <= i < |notes| && CountsAgainst(notes[i], invoiceId);
        if i < |init| {
          assert init[i] == notes[i];
        }
      }
    }
  }

  /** With non-negative credit amounts no invoice is credited a negative sum. */
  lemma {:induction false} AppliedCreditNonNegative(notes: seq<CreditNote>, invoiceId: string)
    requires forall i :: 0 <= i < |notes| ==> notes[i].amount >= 0.0
    ensures AppliedCredit(notes, invoiceId) >= 0.0
    decreases |notes|
  {
    if notes != [] {
      AppliedCreditNonNegative(notes[..|notes| - 1], invoiceId);
    }
  }

  /** The loop of utils/financialCalculations.ts that fills the dictionary. */
  method BuildCreditMap(notes: seq<CreditNote>) returns (credits: map<string, real>)
    ensures credits == CreditMap(notes)
    ensures forall id :: Lookup(credits, id) == AppliedCredit(notes, id)
  {
    credits := map[];
    for i := 0 to |notes|
      invariant credits == CreditMap(notes[..i])
    {
      var cn := notes[i];
      if cn.status == CreditNoteStatus.Applied && cn.invoiceId != "" {
        credits := credits[cn.invoiceId := Lookup(credits, cn.invoiceId) + cn.amount];
      }
      assert notes[..i + 1][..i] == notes[..i];
    }
    assert notes[..|notes|] == notes;
    forall id ensures Lookup(credits, id) == AppliedCredit(notes, id) {
      CreditMapIsAppliedSum(notes, id);
    }
  }

  /** `Math.max(inv.amount - credited, 0)`: the revenue an invoice is worth
      after its credits; over-crediting clamps to zero instead of going
      negative. */
  function NetRevenue(inv: Invoice, credits: map<string, real>): (r: real)
    ensures r >= 0.0
    ensures r >= inv.amount - Lookup(credits, inv.id)
    ensures r == 0.0 || r == inv.amount - Lookup(credits, inv.id)
    ensures inv.amount >= 0.0 && Lookup(credits, inv.id) >= 0.0 ==> r <= inv.amount
  {
    Max(inv.amount - Lookup(credits, inv.id), 0.0)
  }
}
