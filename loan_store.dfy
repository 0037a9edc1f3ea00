/**
 * The loan store (src/hooks/useLoans.ts): one collection of loans, replaced by a map, filter
 * or prepend of its old value on every operation, and the loan-number builder. The functions
 * say what each operation leaves in the collection; the class `LoanStore` holds it.
 */
module LoanStore {
  import opened Wrappers
  import opened Text
  import opened Seqs
  import opened Types
  import opened Env

  // ---------------------------------------------------------------- loan numbers

  const LoanNumberPrefix := "FINTEGRAL-"

  /**
   * `generateLoanNumber`: the prefix, the last six characters of the millisecond timestamp,
   * a dash, and the random number below 1000 padded to three digits with leading zeros.
   */
  function GenerateLoanNumber(millis: nat, random: Thousandth): (r: string)
    ensures |r| >= 13 && r[..10] == LoanNumberPrefix
  {
    LoanNumberPrefix + TakeLast(NatToString(millis), 6) + "-" + PadStart(NatToString(random), 3, '0')
  }

  /** The six timestamp characters of a timestamp with six digits or more. */
  lemma StampDigits(millis: nat)
    requires millis >= 100000
    ensures var stamp := TakeLast(NatToString(millis), 6);
      |stamp| == 6 && AllDigits(stamp) && ParseNat(stamp) == millis % 1000000
  {
    var ms := NatToString(millis);
    assert Pow10(5) == 100000;
    NatToStringLength(millis, 6);
    NatToStringFacts(millis);
    ParseLastDigits(millis, 6);
    assert Pow10(6) == 1000000;
    var stamp := TakeLast(ms, 6);
    assert stamp == ms[|ms| - 6..];
    assert forall i :: 0 <= i < 6 ==> stamp[i] == ms[|ms| - 6 + i];
  }

  /** The three random characters: always three digits that read back as the number drawn. */
  lemma SuffixDigits(random: Thousandth)
    ensures var suffix := PadStart(NatToString(random), 3, '0');
      |suffix| == 3 && AllDigits(suffix) && ParseNat(suffix) == random
  {
    var rs := NatToString(random);
    assert Pow10(3) == 1000;
    NatToStringLength(random, 4);
    NatToStringFacts(random);
    var suffix := PadStart(rs, 3, '0');
    var zeros := Repeat('0', 3 - |rs|);
    assert suffix == zeros + rs;
    ParseNatZeros(3 - |rs|, rs);
    assert forall i :: 3 - |rs| <= i < 3 ==> suffix[i] == rs[i - (3 - |rs|)];
  }

  /**
   * For a timestamp of six digits or more the number has twenty characters, and its two digit
   * groups read back as the timestamp modulo 10^6 and the random number.
   */
  lemma LoanNumberDecodes(millis: nat, random: Thousandth)
    requires millis >= 100000
    ensures var r := GenerateLoanNumber(millis, random);
      && |r| == 20 && r[..10] == LoanNumberPrefix && r[16] == '-'
      && AllDigits(r[10..16]) && ParseNat(r[10..16]) == millis % 1000000
      && AllDigits(r[17..]) && ParseNat(r[17..]) == random
  {
    var stamp := TakeLast(NatToString(millis), 6);
    var suffix := PadStart(NatToString(random), 3, '0');
    StampDigits(millis);
    SuffixDigits(random);
    var r := GenerateLoanNumber(millis, random);
    assert r == LoanNumberPrefix + stamp + "-" + suffix;
    assert r[10..16] == stamp;
    assert r[17..] == suffix;
  }

  // ---------------------------------------------------------------- records in and out

  /** What `addLoan` receives: a loan without `id`, `loanNumber`, `createdAt`, `updatedAt`, `status`. */
  datatype LoanInput = LoanInput(
    borrowerName: string,
    borrowerEmail: string,
    borrowerPhone: string,
    loanPurpose: LoanPurpose,
    propertyType: PropertyType,
    loanAmount: int,
    estimatedValue: int,
    interestRate: Option<real>,
    term: Option<int>,
    subjectProperty: Address,
    properties: seq<Property>,
    employment: seq<Employment>,
    liabilities: seq<Liability>,
    documents: seq<Document>,
    assignedTo: Option<string>,
    notes: Option<string>)

  function LoanInputOf(l: Loan): LoanInput
  {
    LoanInput(l.borrowerName, l.borrowerEmail, l.borrowerPhone, l.loanPurpose, l.propertyType,
              l.loanAmount, l.estimatedValue, l.interestRate, l.term, l.subjectProperty, l.properties,
              l.employment, l.liabilities, l.documents, l.assignedTo, l.notes)
  }

  /** The record `addLoan` stores: a draft, created and updated at the same instant. */
  function NewLoan(input: LoanInput, id: string, loanNumber: string, at: string): (l: Loan)
    ensures l.id == id && l.loanNumber == loanNumber && l.status == Draft
    ensures l.createdAt == at && l.updatedAt == at
    ensures LoanInputOf(l) == input
  {
    Loan(id, loanNumber, input.borrowerName, input.borrowerEmail, input.borrowerPhone, input.loanPurpose,
         input.propertyType, input.loanAmount, input.estimatedValue, input.interestRate, input.term,
         input.subjectProperty, input.properties, input.employment, input.liabilities, input.documents,
         Draft, at, at, input.assignedTo, input.notes)
  }

  /** `Partial<Loan>`, one `Option` per key; optional fields are `Option<Option<_>>`. */
  datatype LoanUpdate = LoanUpdate(
    id: Option<string>,
    loanNumber: Option<string>,
    borrowerName: Option<string>,
    borrowerEmail: Option<string>,
    borrowerPhone: Option<string>,
    loanPurpose: Option<LoanPurpose>,
    propertyType: Option<PropertyType>,
    loanAmount: Option<int>,
    estimatedValue: Option<int>,
    interestRate: Option<Option<real>>,
    term: Option<Option<int>>,
    subjectProperty: Option<Address>,
    properties: Option<seq<Property>>,
    employment: Option<seq<Employment>>,
    liabilities: Option<seq<Liability>>,
    documents: Option<seq<Document>>,
    status: Option<LoanStatus>,
    createdAt: Option<string>,
    assignedTo: Option<Option<string>>,
    notes: Option<Option<string>>)

  const NoLoanUpdate := LoanUpdate(None, None, None, None, None, None, None, None, None, None,
                                   None, None, None, None, None, None, None, None, None, None)

  /**
   * `{ ...loan, ...updates, updatedAt: now }`: the clock always wins over an `updatedAt` in the
   * updates, so that key is not part of `LoanUpdate`.
   */
  function MergeLoan(l: Loan, u: LoanUpdate, at: string): (r: Loan)
    ensures r.updatedAt == at
    ensures u == NoLoanUpdate ==> r == l.(updatedAt := at)
  {
    Loan(u.id.GetOr(l.id), u.loanNumber.GetOr(l.loanNumber), u.borrowerName.GetOr(l.borrowerName),
         u.borrowerEmail.GetOr(l.borrowerEmail), u.borrowerPhone.GetOr(l.borrowerPhone),
         u.loanPurpose.GetOr(l.loanPurpose), u.propertyType.GetOr(l.propertyType),
         u.loanAmount.GetOr(l.loanAmount), u.estimatedValue.GetOr(l.estimatedValue),
         u.interestRate.GetOr(l.interestRate), u.term.GetOr(l.term),
         u.subjectProperty.GetOr(l.subjectProperty), u.properties.GetOr(l.properties),
         u.employment.GetOr(l.employment), u.liabilities.GetOr(l.liabilities),
         u.documents.GetOr(l.documents), u.status.GetOr(l.status), u.createdAt.GetOr(l.createdAt),
         at, u.assignedTo.GetOr(l.assignedTo), u.notes.GetOr(l.notes))
  }

  /** Applying the same update twice at the same instant is applying it once. */
  lemma MergeLoanIdempotent(l: Loan, u: LoanUpdate, at: string)
    ensures MergeLoan(MergeLoan(l, u, at), u, at) == MergeLoan(l, u, at)
  {
  }

  // ---------------------------------------------------------------- single-loan rewrites

  /** `notes || loan.notes`: an absent or empty note keeps the old one. */
  function NotesAfter(old_notes: Option<string>, notes: Option<string>): (r: Option<string>)
    ensures notes.Some? && notes.value != "" ==> r == notes
    ensures (notes.None? || notes.value == "") ==> r == old_notes
  {
    if notes.Some? && notes.value != "" then notes else old_notes
  }

  /** `updateLoanStatus` on one loan: any status is accepted. */
  function StatusChange(l: Loan, status: LoanStatus, notes: Option<string>, at: string): (r: Loan)
    ensures r.status == status && r.updatedAt == at && r.notes == NotesAfter(l.notes, notes)
    ensures r.(status := l.status, updatedAt := l.updatedAt, notes := l.notes) == l
  {
    l.(status := status, notes := NotesAfter(l.notes, notes), updatedAt := at)
  }

  /** `bulkUpdateStatus` on one loan: the notes are kept. */
  function BulkStatus(l: Loan, status: LoanStatus, at: string): (r: Loan)
    ensures r.status == status && r.updatedAt == at
    ensures r.(status := l.status, updatedAt := l.updatedAt) == l
  {
    l.(status := status, updatedAt := at)
  }

  /** `bulkAssign` on one loan. */
  function Assignment(l: Loan, assignedTo: string, at: string): (r: Loan)
    ensures r.assignedTo == Some(assignedTo) && r.updatedAt == at
    ensures r.(assignedTo := l.assignedTo, updatedAt := l.updatedAt) == l
  {
    l.(assignedTo := Some(assignedTo), updatedAt := at)
  }

  // ---------------------------------------------------------------- selectors

  function LoanIdIs(id: string): Loan -> bool { (l: Loan) => l.id == id }
  function LoanIdIn(ids: seq<string>): Loan -> bool { (l: Loan) => l.id in ids }
  function LoanIdIsNot(id: string): Loan -> bool { (l: Loan) => l.id != id }
  function LoanIdNotIn(ids: seq<string>): Loan -> bool { (l: Loan) => l.id !in ids }
  function LoanStatusIs(s: LoanStatus): Loan -> bool { (l: Loan) => l.status == s }
  function ListedOrStatus(ids: seq<string>, s: LoanStatus): Loan -> bool { (l: Loan) => l.id in ids || l.status == s }

  // ---------------------------------------------------------------- collection rewrites

  function UpdateLoanIn(ls: seq<Loan>, id: string, u: LoanUpdate, at: string): (r: seq<Loan>)
    ensures |r| == |ls|
    ensures forall i :: 0 <= i < |ls| && ls[i].id != id ==> r[i] == ls[i]
    ensures forall i :: 0 <= i < |ls| && ls[i].id == id ==> r[i] == MergeLoan(ls[i], u, at)
  {
    MapWhere(ls, LoanIdIs(id), l => MergeLoan(l, u, at))
  }

  function UpdateLoanStatusIn(ls: seq<Loan>, id: string, status: LoanStatus, notes: Option<string>,
                              at: string): (r: seq<Loan>)
    ensures |r| == |ls|
    ensures forall i :: 0 <= i < |ls| && ls[i].id != id ==> r[i] == ls[i]
    ensures forall i :: 0 <= i < |ls| && ls[i].id == id ==> r[i] == StatusChange(ls[i], status, notes, at)
  {
    MapWhere(ls, LoanIdIs(id), l => StatusChange(l, status, notes, at))
  }

  /** A status change for an id no loan carries changes nothing. */
  lemma UpdateLoanStatusAbsent(ls: seq<Loan>, id: string, status: LoanStatus, notes: Option<string>, at: string)
    requires forall i :: 0 <= i < |ls| ==> ls[i].id != id
    ensures UpdateLoanStatusIn(ls, id, status, notes, at) == ls
  {
  }

  function BulkUpdateStatusIn(ls: seq<Loan>, ids: seq<string>, status: LoanStatus, at: string): (r: seq<Loan>)
    ensures |r| == |ls|
    ensures forall i :: 0 <= i < |ls| && ls[i].id !in ids ==> r[i] == ls[i]
    ensures forall i :: 0 <= i < |ls| && ls[i].id in ids ==> r[i] == BulkStatus(ls[i], status, at)
  {
    MapWhere(ls, LoanIdIn(ids), l => BulkStatus(l, status, at))
  }

  function BulkAssignIn(ls: seq<Loan>, ids: seq<string>, assignedTo: string, at: string): (r: seq<Loan>)
    ensures |r| == |ls|
    ensures forall i :: 0 <= i < |ls| && ls[i].id !in ids ==> r[i] == ls[i]
    ensures forall i :: 0 <= i < |ls| && ls[i].id in ids ==> r[i] == Assignment(ls[i], assignedTo, at)
  {
    MapWhere(ls, LoanIdIn(ids), l => Assignment(l, assignedTo, at))
  }

  /** Ids that name no loan are ignored by both bulk rewrites. */
  lemma BulkIgnoresUnknownIds(ls: seq<Loan>, ids: seq<string>, extra: seq<string>, status: LoanStatus,
                              assignedTo: string, at: string)
    requires forall i :: 0 <= i < |ls| ==> ls[i].id !in extra
    ensures BulkUpdateStatusIn(ls, ids + extra, status, at) == BulkUpdateStatusIn(ls, ids, status, at)
    ensures BulkAssignIn(ls, ids + extra, assignedTo, at) == BulkAssignIn(ls, ids, assignedTo, at)
  {
    var a := BulkUpdateStatusIn(ls, ids + extra, status, at);
    var b := BulkUpdateStatusIn(ls, ids, status, at);
    assert forall i :: 0 <= i < |ls| ==> (ls[i].id in ids + extra <==> ls[i].id in ids);
    assert forall i :: 0 <= i < |ls| ==> a[i] == b[i];
    var c := BulkAssignIn(ls, ids + extra, assignedTo, at);
    var d := BulkAssignIn(ls, ids, assignedTo, at);
    assert forall i :: 0 <= i < |ls| ==> c[i] == d[i];
  }

  /** `deleteLoan`. */
  function DeleteLoanIn(ls: seq<Loan>, id: string): (r: seq<Loan>)
    ensures forall i :: 0 <= i < |r| ==> r[i] in ls && r[i].id != id
    ensures forall i :: 0 <= i < |ls| && ls[i].id != id ==> ls[i] in r
  {
    Filter(ls, LoanIdIsNot(id))
  }

  /** `bulkDelete`. */
  function DeleteLoansIn(ls: seq<Loan>, ids: seq<string>): (r: seq<Loan>)
    ensures forall i :: 0 <= i < |r| ==> r[i] in ls && r[i].id !in ids
    ensures forall i :: 0 <= i < |ls| && ls[i].id !in ids ==> ls[i] in r
  {
    Filter(ls, LoanIdNotIn(ids))
  }

  /**
   * Bulk deletion removes exactly the listed ids: a survivor occurs as often as before, a
   * deleted loan not at all, the survivors keep their order, and unknown ids have no effect.
   */
  lemma DeleteLoansExactly(a: seq<Loan>, b: seq<Loan>, ids: seq<string>, l: Loan)
    ensures multiset(DeleteLoansIn(a, ids))[l] == if l.id in ids then 0 else multiset(a)[l]
    ensures DeleteLoansIn(a + b, ids) == DeleteLoansIn(a, ids) + DeleteLoansIn(b, ids)
    ensures (forall i :: 0 <= i < |a| ==> a[i].id !in ids) ==> DeleteLoansIn(a, ids) == a
  {
    FilterMultiset(a, LoanIdNotIn(ids), l);
    FilterConcat(a, b, LoanIdNotIn(ids));
    if forall i :: 0 <= i < |a| ==> a[i].id !in ids {
      FilterKeepsAll(a, LoanIdNotIn(ids));
    }
  }

  /** Deleting one id is bulk-deleting the one-element list. */
  lemma DeleteOneLoanIsBulk(ls: seq<Loan>, id: string)
    ensures DeleteLoanIn(ls, id) == DeleteLoansIn(ls, [id])
  {
    FilterAgree(ls, LoanIdIsNot(id), LoanIdNotIn([id]));
  }

  /** `getLoanById`: the first loan with that id, or nothing when none has it. */
  function FindLoan(ls: seq<Loan>, id: string): (r: Option<Loan>)
    ensures r.None? <==> forall i :: 0 <= i < |ls| ==> ls[i].id != id
    ensures r.Some? ==> exists i :: 0 <= i < |ls| && ls[i] == r.value && r.value.id == id &&
                                    forall j :: 0 <= j < i ==> ls[j].id != id
  {
    Find(ls, LoanIdIs(id))
  }

  /** `getLoansByStatus`: the loans with that status, in list order. */
  function LoansWithStatus(ls: seq<Loan>, s: LoanStatus): (r: seq<Loan>)
    ensures forall i :: 0 <= i < |r| ==> r[i] in ls && r[i].status == s
    ensures forall i :: 0 <= i < |ls| && ls[i].status == s ==> ls[i] in r
  {
    Filter(ls, LoanStatusIs(s))
  }

  /**
   * The loans with a status are exactly those loans in collection order: each occurs as often
   * as in the list, the selection distributes over concatenation and keeps a single loan
   * exactly when it has the status.
   */
  lemma LoansWithStatusExactly(a: seq<Loan>, b: seq<Loan>, s: LoanStatus, l: Loan)
    ensures multiset(LoansWithStatus(a, s))[l] == if l.status == s then multiset(a)[l] else 0
    ensures LoansWithStatus(a + b, s) == LoansWithStatus(a, s) + LoansWithStatus(b, s)
    ensures LoansWithStatus([l], s) == if l.status == s then [l] else []
  {
    FilterMultiset(a, LoanStatusIs(s), l);
    FilterConcat(a, b, LoanStatusIs(s));
    FilterSingleton(l, LoanStatusIs(s));
  }

  // ---------------------------------------------------------------- statistics

  function CountLoanStatus(ls: seq<Loan>, s: LoanStatus): nat
  {
    Count(ls, LoanStatusIs(s))
  }

  /** The seven status counters add up to the number of loans. */
  lemma {:induction false} LoanStatusCountsPartition(ls: seq<Loan>)
    ensures CountLoanStatus(ls, Draft) + CountLoanStatus(ls, Submitted) + CountLoanStatus(ls, InReview)
            + CountLoanStatus(ls, Conditions) + CountLoanStatus(ls, Approved) + CountLoanStatus(ls, Denied)
            + CountLoanStatus(ls, Closed) == |ls|
  {
    if ls != [] {
      LoanStatusCountsPartition(ls[..|ls| - 1]);
    }
  }

  /** Each counter is the size of the matching `getLoansByStatus` list. */
  lemma CounterIsListSize(ls: seq<Loan>, s: LoanStatus)
    ensures CountLoanStatus(ls, s) == |LoansWithStatus(ls, s)|
  {
    CountIsFilterLength(ls, LoanStatusIs(s));
  }

  /** After a bulk status change to `s`, the `s` counter holds the listed loans and those already at `s`. */
  lemma BulkStatusCounter(ls: seq<Loan>, ids: seq<string>, s: LoanStatus, at: string)
    ensures CountLoanStatus(BulkUpdateStatusIn(ls, ids, s, at), s) == Count(ls, ListedOrStatus(ids, s))
  {
    CountPointwise(BulkUpdateStatusIn(ls, ids, s, at), ls, LoanStatusIs(s), ListedOrStatus(ids, s));
  }

  // ---------------------------------------------------------------- the store

  class LoanStore {
    var loans: seq<Loan>

    constructor (loans: seq<Loan>)
      ensures this.loans == loans
    {
      this.loans := loans;
    }

    /**
     * Prepends a draft and returns exactly the stored record. The id is drawn first, then the
     * loan number's random part; one clock reading serves the timestamp and both dates.
     */
    method AddLoan(input: LoanInput, rng: Entropy, at: Clock) returns (loan: Loan)
      modifies this, rng
      ensures loan == NewLoan(input, rng.idOf(old(rng.drawn)),
                              GenerateLoanNumber(at.millis, rng.thousandthOf(old(rng.drawn) + 1)), at.iso)
      ensures loans == [loan] + old(loans)
      ensures rng.drawn == old(rng.drawn) + 2
    {
      var id := rng.NextId();
      var random := rng.NextThousandth();
      loan := NewLoan(input, id, GenerateLoanNumber(at.millis, random), at.iso);
      loans := [loan] + loans;
    }

    method UpdateLoan(id: string, u: LoanUpdate, at: Clock)
      modifies this
      ensures loans == UpdateLoanIn(old(loans), id, u, at.iso)
    {
      loans := UpdateLoanIn(loans, id, u, at.iso);
    }

    method UpdateLoanStatus(id: string, status: LoanStatus, notes: Option<string>, at: Clock)
      modifies this
      ensures loans == UpdateLoanStatusIn(old(loans), id, status, notes, at.iso)
    {
      loans := UpdateLoanStatusIn(loans, id, status, notes, at.iso);
    }

    method DeleteLoan(id: string)
      modifies this
      ensures loans == DeleteLoanIn(old(loans), id)
    {
      loans := DeleteLoanIn(loans, id);
    }

    method BulkUpdateStatus(ids: seq<string>, status: LoanStatus, at: Clock)
      modifies this
      ensures loans == BulkUpdateStatusIn(old(loans), ids, status, at.iso)
    {
      loans := BulkUpdateStatusIn(loans, ids, status, at.iso);
    }

    method BulkDelete(ids: seq<string>)
      modifies this
      ensures loans == DeleteLoansIn(old(loans), ids)
    {
      loans := DeleteLoansIn(loans, ids);
    }

    method BulkAssign(ids: seq<string>, assignedTo: string, at: Clock)
      modifies this
      ensures loans == BulkAssignIn(old(loans), ids, assignedTo, at.iso)
    {
      loans := BulkAssignIn(loans, ids, assignedTo, at.iso);
    }

    function GetLoanById(id: string): (r: Option<Loan>)
      reads this
      ensures r.None? <==> forall i :: 0 <= i < |loans| ==> loans[i].id != id
      ensures r.Some? ==> r.value in loans && r.value.id == id
    {
      FindLoan(loans, id)
    }

    function GetLoansByStatus(s: LoanStatus): (r: seq<Loan>)
      reads this
      ensures forall i :: 0 <= i < |r| ==> r[i] in loans && r[i].status == s
      ensures forall i :: 0 <= i < |loans| && loans[i].status == s ==> loans[i] in r
      ensures r == LoansWithStatus(loans, s)
    {
      LoansWithStatus(loans, s)
    }

    /** The counting reduce: one counter per status, and the total. */
    method Stats() returns (st: PipelineStats)
      ensures st.total == |loans|
      ensures st.draft == CountLoanStatus(loans, Draft) && st.submitted == CountLoanStatus(loans, Submitted)
      ensures st.inReview == CountLoanStatus(loans, InReview) && st.conditions == CountLoanStatus(loans, Conditions)
      ensures st.approved == CountLoanStatus(loans, Approved) && st.denied == CountLoanStatus(loans, Denied)
      ensures st.closed == CountLoanStatus(loans, Closed)
      ensures st.total == st.draft + st.submitted + st.inReview + st.conditions + st.approved
                          + st.denied + st.closed
    {
      var total, draft, submitted, inReview, conditions, approved, denied, closed := 0, 0, 0, 0, 0, 0, 0, 0;
      for i := 0 to |loans|
        invariant total == i
        invariant draft == CountLoanStatus(loans[..i], Draft)
        invariant submitted == CountLoanStatus(loans[..i], Submitted)
        invariant inReview == CountLoanStatus(loans[..i], InReview)
        invariant conditions == CountLoanStatus(loans[..i], Conditions)
        invariant approved == CountLoanStatus(loans[..i], Approved)
        invariant denied == CountLoanStatus(loans[..i], Denied)
        invariant closed == CountLoanStatus(loans[..i], Closed)
      {
        var l := loans[i];
        assert loans[..i + 1][..i] == loans[..i];
        total := total + 1;
        match l.status {
          case Draft => draft := draft + 1;
          case Submitted => submitted := submitted + 1;
          case InReview => inReview := inReview + 1;
          case Conditions => conditions := conditions + 1;
          case Approved => approved := approved + 1;
          case Denied => denied := denied + 1;
          case Closed => closed := closed + 1;
        }
      }
      assert loans[..|loans|] == loans;
      LoanStatusCountsPartition(loans);
      st := PipelineStats(total, draft, submitted, inReview, conditions, approved, denied, closed);
    }
  }
}
