/** The decomposed receipt pipeline, run sequentially: extract, vendor-match, classify-account, build-entry. */
module Pipeline {
  import opened Wrappers
  import opened Int64
  import opened Entries
  import opened VendorMatch
  import Calendar
  import Text

  const EXTRACT_CONFIDENCE_MIN := 0.75
  const CLASSIFY_CONFIDENCE_MIN := 0.80
  const VENDOR_CONFIDENCE_MIN := 0.85
  const CENTS_TOLERANCE := 2

  datatype LineItem = LineItem(description: string, quantity: Option<real>, amountCents: int64)

  datatype ExtractResult = ExtractResult(
    vendorName: Option<string>, date: Option<string>, currency: Option<string>,
    subtotalCents: Option<int64>, taxCents: Option<int64>, totalCents: Option<int64>,
    lineItems: seq<LineItem>, confidence: real)

  datatype AccountRef = AccountRef(code: string, name: string, accountType: string)

  datatype ClassifyResult = ClassifyResult(accountCode: string, confidence: real, reason: string)

  datatype BuildError =
    | NoTotal
    | AccountsRequired
    | NonPositiveTotal(total: int64)
    | SplitMismatch(subtotal: int64, tax: int64, total: int64)
    | NegativeAmount(account: string)
    | Unbalanced(debits: int64, credits: int64)
    | TotalDiffers(total: int64, debits: int64)

  datatype Issue =
    | InvalidJson(message: string)
    | ConfidenceOutOfRange(confidence: real)
    | TotalMismatch(total: int64, subtotal: int64, tax: int64)
    | LinesMissSubtotal(sum: int64, subtotal: int64)
    | LinesMissTotal(sum: int64, total: int64)
    | NotADate(date: string)
    | NotACurrency(currency: string)
    | VendorProblem(problem: VendorIssue)
    | UnknownAccount(code: string)
    | BuildFailed(error: BuildError)
    // Reported by the batched path only.
    | NoOcrText
    | UnreadableState
    | ProviderError(message: string)
    | DraftRejected

  /** One AI request; rendering it to text is a function of these parts. */
  datatype Prompt =
    | ExtractPrompt(ocrText: string)
    | VendorPrompt(vendorName: string, candidates: seq<VendorRef>)
    | ClassifyPrompt(extract: ExtractResult, accounts: seq<AccountRef>)

  /** The JSON decoders and encoders of the three stage results. */
  datatype Codec = Codec(
    parseExtract: string -> Result<ExtractResult, string>,
    parseVendor: string -> Result<VendorMatchResult, string>,
    parseClassify: string -> Result<ClassifyResult, string>,
    showExtract: ExtractResult -> string,
    showVendor: VendorMatchResult -> string)

  /** The vendor match that a deterministic exact match stores. */
  function ExactAnswer(id: string): VendorMatchResult {
    VendorMatchResult(Some(id), false, None, 1.0, "")
  }

  /** Whatever was decoded once, and every exact match, is decoded again from its encoding. */
  ghost predicate RoundTrips(c: Codec) {
    && (forall s :: c.parseExtract(s).Ok? ==>
         c.parseExtract(c.showExtract(c.parseExtract(s).value)) == c.parseExtract(s))
    && (forall s :: c.parseVendor(s).Ok? ==> c.parseVendor(c.showVendor(c.parseVendor(s).value)) == c.parseVendor(s))
    && (forall id :: c.parseVendor(c.showVendor(ExactAnswer(id))) == Ok(ExactAnswer(id)))
  }

  // ---- Gates ----

  datatype Outcome = Outcome(advance: bool, issues: seq<Issue>)

  function Gate(confidence: real, min: real, issues: seq<Issue>): Outcome {
    if |issues| == 0 && confidence >= min then Outcome(true, []) else Outcome(false, issues)
  }

  function LineSum(items: seq<LineItem>): int {
    if items == [] then 0 else LineSum(items[..|items| - 1]) + items[|items| - 1].amountCents
  }

  /** Go's abs64(a - b) > centsTolerance, in wrapping arithmetic. */
  predicate Apart(a: int64, b: int64) {
    Abs(Wrap(a - b)) > CENTS_TOLERANCE
  }

  function LineIssues(r: ExtractResult, sum: int64): seq<Issue> {
    if r.lineItems == [] then []
    else if r.subtotalCents.Some? && Apart(sum, r.subtotalCents.value) then
      [LinesMissSubtotal(sum, r.subtotalCents.value)]
    else if r.subtotalCents.None? && r.totalCents.Some? && Apart(sum, r.totalCents.value) then
      [LinesMissTotal(sum, r.totalCents.value)]
    else []
  }

  function ConfidenceIssues(confidence: real): seq<Issue> {
    if confidence < 0.0 || confidence > 1.0 then [ConfidenceOutOfRange(confidence)] else []
  }

  function TotalIssues(r: ExtractResult): seq<Issue> {
    if r.totalCents.Some? && r.subtotalCents.Some? && r.taxCents.Some?
       && Apart(r.totalCents.value, Wrap(r.subtotalCents.value + r.taxCents.value))
    then [TotalMismatch(r.totalCents.value, r.subtotalCents.value, r.taxCents.value)]
    else []
  }

  function DateIssues(r: ExtractResult): seq<Issue> {
    if r.date.Some? && r.date.value != "" && !Calendar.IsIsoDate(r.date.value) then [NotADate(r.date.value)] else []
  }

  function CurrencyIssues(r: ExtractResult): seq<Issue> {
    if r.currency.Some? && r.currency.value != "" && Text.ByteLength(r.currency.value) != 3
    then [NotACurrency(r.currency.value)]
    else []
  }

  function AmountIssues(r: ExtractResult): seq<Issue> {
    TotalIssues(r) + LineIssues(r, Wrap(LineSum(r.lineItems)))
  }

  function FormatIssues(r: ExtractResult): seq<Issue> {
    DateIssues(r) + CurrencyIssues(r)
  }

  /** The deterministic checks on an extraction, in the order they are reported. */
  function ExtractIssues(r: ExtractResult): seq<Issue> {
    ConfidenceIssues(r.confidence) + AmountIssues(r) + FormatIssues(r)
  }

  /** An exact difference of amounts passes the tolerance: it is at most two cents, up to whole turns of int64,
      or half a turn - the one difference whose absolute value is still negative. */
  predicate Near(difference: int) {
    (difference + CENTS_TOLERANCE) % MODULUS <= 2 * CENTS_TOLERANCE || difference % MODULUS == MODULUS / 2
  }

  lemma ApartIsNotNear(x: int, y: int)
    ensures Apart(Wrap(x), Wrap(y)) <==> !Near(x - y)
  {
    var p := WrapTurns(x);
    var q := WrapTurns(y);
    WrapCongruent(Wrap(x) - Wrap(y), x - y, p - q);
    NearWraps(x - y);
  }

  lemma NearWraps(x: int)
    ensures Near(x) <==> Abs(Wrap(x)) <= CENTS_TOLERANCE
  {
    var k := WrapTurns(x);
    if -CENTS_TOLERANCE <= Wrap(x) <= CENTS_TOLERANCE {
      SameRemainder(x + CENTS_TOLERANCE, Wrap(x) + CENTS_TOLERANCE, -k);
    } else if Wrap(x) < 0 {
      SameRemainder(x, Wrap(x) + MODULUS, -k - 1);
      SameRemainder(x + CENTS_TOLERANCE, Wrap(x) + CENTS_TOLERANCE + MODULUS, -k - 1);
    } else {
      SameRemainder(x, Wrap(x), -k);
      SameRemainder(x + CENTS_TOLERANCE, Wrap(x) + CENTS_TOLERANCE, -k);
    }
  }

  lemma SameRemainder(x: int, y: int, k: int)
    requires x == y + k * MODULUS && 0 <= y < MODULUS
    ensures x % MODULUS == y
  {
  }

  /** For differences smaller than half a turn the tolerance means what it says. */
  lemma NearMeansTwoCents(difference: int)
    requires -MODULUS / 2 < difference < MODULUS / 2
    ensures Near(difference) <==> -2 <= difference <= 2
  {
  }

  /** What a clean extraction promises about its amounts, in exact arithmetic, and about its other fields. */
  predicate Consistent(r: ExtractResult) {
    && 0.0 <= r.confidence <= 1.0
    && (r.totalCents.Some? && r.subtotalCents.Some? && r.taxCents.Some? ==>
          Near(r.totalCents.value - (r.subtotalCents.value + r.taxCents.value)))
    && (r.lineItems != [] && r.subtotalCents.Some? ==> Near(LineSum(r.lineItems) - r.subtotalCents.value))
    && (r.lineItems != [] && r.subtotalCents.None? && r.totalCents.Some? ==>
          Near(LineSum(r.lineItems) - r.totalCents.value))
    && (r.date.Some? && r.date.value != "" ==> Calendar.IsIsoDate(r.date.value))
    && (r.currency.Some? && r.currency.value != "" ==> Text.ByteLength(r.currency.value) == 3)
  }

  lemma CleanTotals(r: ExtractResult)
    ensures TotalIssues(r) == [] <==>
            (r.totalCents.Some? && r.subtotalCents.Some? && r.taxCents.Some? ==>
               Near(r.totalCents.value - (r.subtotalCents.value + r.taxCents.value)))
  {
    if r.totalCents.Some? && r.subtotalCents.Some? && r.taxCents.Some? {
      ApartIsNotNear(r.totalCents.value, r.subtotalCents.value + r.taxCents.value);
    }
  }

  lemma CleanLines(r: ExtractResult)
    ensures LineIssues(r, Wrap(LineSum(r.lineItems))) == [] <==>
            && (r.lineItems != [] && r.subtotalCents.Some? ==> Near(LineSum(r.lineItems) - r.subtotalCents.value))
            && (r.lineItems != [] && r.subtotalCents.None? && r.totalCents.Some? ==>
                  Near(LineSum(r.lineItems) - r.totalCents.value))
  {
    if r.subtotalCents.Some? {
      ApartIsNotNear(LineSum(r.lineItems), r.subtotalCents.value);
    } else if r.totalCents.Some? {
      ApartIsNotNear(LineSum(r.lineItems), r.totalCents.value);
    }
  }

  /** Exactly when an extraction is clean, and when it clears its gate. */
  lemma CleanExtraction(r: ExtractResult)
    ensures ExtractIssues(r) == [] <==> Consistent(r)
    ensures GateExtract(r).advance <==> Consistent(r) && r.confidence >= 0.75
    ensures GateExtract(r).issues == ExtractIssues(r)
  {
    CleanTotals(r);
    CleanLines(r);
    assert |AmountIssues(r)| == |TotalIssues(r)| + |LineIssues(r, Wrap(LineSum(r.lineItems)))|;
    assert |ExtractIssues(r)| == |ConfidenceIssues(r.confidence)| + |AmountIssues(r)| + |FormatIssues(r)|;
  }

  method SumLines(items: seq<LineItem>) returns (sum: int64)
    ensures sum == Wrap(LineSum(items))
  {
    sum := 0;
    for i := 0 to |items|
      invariant sum == Wrap(LineSum(items[..i]))
    {
      assert items[..i + 1][..i] == items[..i];
      WrapAdd(LineSum(items[..i]), items[i].amountCents);
      sum := Wrap(sum + items[i].amountCents);
    }
    assert items[..|items|] == items;
  }

  /** The totals are compared, then the sum of the lines. */
  method ValidateAmounts(r: ExtractResult) returns (issues: seq<Issue>)
    ensures issues == AmountIssues(r)
  {
    issues := [];
    if r.totalCents.Some? && r.subtotalCents.Some? && r.taxCents.Some? {
      var want := Wrap(r.subtotalCents.value + r.taxCents.value);
      if Apart(r.totalCents.value, want) {
        issues := issues + [TotalMismatch(r.totalCents.value, r.subtotalCents.value, r.taxCents.value)];
      }
    }
    if |r.lineItems| > 0 {
      var sum := SumLines(r.lineItems);
      if r.subtotalCents.Some? && Apart(sum, r.subtotalCents.value) {
        issues := issues + [LinesMissSubtotal(sum, r.subtotalCents.value)];
      } else if r.subtotalCents.None? && r.totalCents.Some? && Apart(sum, r.totalCents.value) {
        issues := issues + [LinesMissTotal(sum, r.totalCents.value)];
      }
    }
  }

  method ValidateFormats(r: ExtractResult) returns (issues: seq<Issue>)
    ensures issues == FormatIssues(r)
  {
    issues := [];
    if r.date.Some? && r.date.value != "" {
      if !Calendar.IsIsoDate(r.date.value) {
        issues := issues + [NotADate(r.date.value)];
      }
    }
    if r.currency.Some? && r.currency.value != "" && Text.ByteLength(r.currency.value) != 3 {
      issues := issues + [NotACurrency(r.currency.value)];
    }
  }

  /** No issues are reported exactly when the extraction is consistent. */
  method ValidateExtract(r: ExtractResult) returns (issues: seq<Issue>)
    ensures issues == ExtractIssues(r)
    ensures issues == [] <==> Consistent(r)
  {
    issues := [];
    if r.confidence < 0.0 || r.confidence > 1.0 {
      issues := issues + [ConfidenceOutOfRange(r.confidence)];
    }
    var amounts := ValidateAmounts(r);
    var formats := ValidateFormats(r);
    issues := issues + amounts + formats;
    CleanExtraction(r);
  }

  function GateExtract(r: ExtractResult): Outcome {
    Gate(r.confidence, EXTRACT_CONFIDENCE_MIN, ExtractIssues(r))
  }

  function VendorProblems(issues: seq<VendorIssue>): (r: seq<Issue>)
    ensures |r| == |issues|
  {
    seq(|issues|, i requires 0 <= i < |issues| => VendorProblem(issues[i]))
  }

  function GateVendorMatch(r: VendorMatchResult, candidates: seq<VendorRef>): Outcome {
    Gate(r.confidence, VENDOR_CONFIDENCE_MIN, VendorProblems(VendorMatch.Issues(r, candidates)))
  }

  predicate HasCode(code: string, accounts: seq<AccountRef>) {
    exists i :: 0 <= i < |accounts| && accounts[i].code == code
  }

  function ClassifyIssues(r: ClassifyResult, accounts: seq<AccountRef>): seq<Issue> {
    ConfidenceIssues(r.confidence)
    + if HasCode(r.accountCode, accounts) then [] else [UnknownAccount(r.accountCode)]
  }

  method ValidateClassify(r: ClassifyResult, accounts: seq<AccountRef>) returns (issues: seq<Issue>)
    ensures issues == ClassifyIssues(r, accounts)
  {
    issues := [];
    if r.confidence < 0.0 || r.confidence > 1.0 {
      issues := issues + [ConfidenceOutOfRange(r.confidence)];
    }
    var found := false;
    var i := 0;
    while i < |accounts|
      invariant 0 <= i <= |accounts|
      invariant !found && forall j :: 0 <= j < i ==> accounts[j].code != r.accountCode
    {
      if accounts[i].code == r.accountCode {
        found := true;
        break;
      }
      i := i + 1;
    }
    if !found {
      issues := issues + [UnknownAccount(r.accountCode)];
    }
  }

  function GateClassify(r: ClassifyResult, accounts: seq<AccountRef>): Outcome {
    Gate(r.confidence, CLASSIFY_CONFIDENCE_MIN, ClassifyIssues(r, accounts))
  }

  /** Some offered account has the code. */
  ghost predicate OfferedCode(code: string, accounts: seq<AccountRef>) {
    exists i :: 0 <= i < |accounts| && accounts[i].code == code
  }

  /** Exactly when a classification clears its gate; what it reports otherwise. */
  lemma CleanClassification(r: ClassifyResult, accounts: seq<AccountRef>)
    ensures GateClassify(r, accounts).advance <==> 0.80 <= r.confidence <= 1.0 && OfferedCode(r.accountCode, accounts)
    ensures var issues := GateClassify(r, accounts).issues;
      && (ConfidenceOutOfRange(r.confidence) in issues <==> !(0.0 <= r.confidence <= 1.0))
      && (UnknownAccount(r.accountCode) in issues <==> !OfferedCode(r.accountCode, accounts))
      && issues == ClassifyIssues(r, accounts)
  {
    assert HasCode(r.accountCode, accounts) <==> OfferedCode(r.accountCode, accounts);
  }

  /** An answer about a vendor that can be acted on: an offered vendor or a usable new one, never both. */
  ghost predicate Decided(r: VendorMatchResult, candidates: seq<VendorRef>) {
    if r.isNewVendor then
      r.vendorId.None? && r.proposed.Some? && !Text.Blank(r.proposed.value.name)
      && !Text.Blank(r.proposed.value.matchPattern)
    else r.vendorId.Some? && exists i :: 0 <= i < |candidates| && candidates[i].id == r.vendorId.value
  }

  /** Exactly when an answer about a vendor clears its gate. */
  lemma CleanVendorAnswer(r: VendorMatchResult, candidates: seq<VendorRef>)
    ensures GateVendorMatch(r, candidates).advance <==> 0.85 <= r.confidence <= 1.0 && Decided(r, candidates)
    ensures GateVendorMatch(r, candidates).issues == VendorProblems(VendorMatch.Issues(r, candidates))
  {
    if r.vendorId.Some? {
      HasIdIsOffered(r.vendorId.value, candidates);
    }
    var issues := VendorMatch.Issues(r, candidates);
    assert |VendorProblems(issues)| == |issues|;
    if |issues| == 0 {
      CleanAnswer(r, candidates);
    }
  }

  // ---- build-entry ----

  datatype DraftEntry = DraftEntry(date: string, memo: string, lines: seq<EntryLine>, totalCents: int64)

  /** The first line with a negative amount. */
  function FirstNegative(lines: seq<EntryLine>): Option<EntryLine> {
    if lines == [] then None
    else if FirstNegative(lines[..|lines| - 1]).Some? then FirstNegative(lines[..|lines| - 1])
    else if lines[|lines| - 1].debit < 0 || lines[|lines| - 1].credit < 0 then Some(lines[|lines| - 1])
    else None
  }

  function BalanceIssue(e: DraftEntry): Option<BuildError> {
    var debits, credits := Wrap(Debits(e.lines)), Wrap(Credits(e.lines));
    if FirstNegative(e.lines).Some? then Some(NegativeAmount(FirstNegative(e.lines).value.account))
    else if debits != credits then Some(Unbalanced(debits, credits))
    else if debits != e.totalCents then Some(TotalDiffers(e.totalCents, debits))
    else None
  }

  method AssertBalanced(e: DraftEntry) returns (issue: Option<BuildError>)
    ensures issue == BalanceIssue(e)
  {
    var debits: int64, credits: int64 := 0, 0;
    for i := 0 to |e.lines|
      invariant FirstNegative(e.lines[..i]) == None
      invariant debits == Wrap(Debits(e.lines[..i])) && credits == Wrap(Credits(e.lines[..i]))
    {
      var l := e.lines[i];
      assert e.lines[..i + 1][..i] == e.lines[..i];
      if l.debit < 0 || l.credit < 0 {
        FirstNegativePrefix(e.lines, i + 1);
        return Some(NegativeAmount(l.account));
      }
      WrapAdd(Debits(e.lines[..i]), l.debit);
      WrapAdd(Credits(e.lines[..i]), l.credit);
      debits := Wrap(debits + l.debit);
      credits := Wrap(credits + l.credit);
    }
    assert e.lines[..|e.lines|] == e.lines;
    if debits != credits {
      return Some(Unbalanced(debits, credits));
    }
    if debits != e.totalCents {
      return Some(TotalDiffers(e.totalCents, debits));
    }
    return None;
  }

  lemma {:induction false} FirstNegativePrefix(lines: seq<EntryLine>, n: nat)
    requires n <= |lines| && FirstNegative(lines[..n]).Some?
    ensures FirstNegative(lines) == FirstNegative(lines[..n])
  {
    if n == |lines| {
      assert lines[..n] == lines;
    } else {
      assert lines[..|lines| - 1][..n] == lines[..n];
      FirstNegativePrefix(lines[..|lines| - 1], n);
    }
  }

  function GetOr(o: Option<string>, default: string): string {
    if o.Some? then o.value else default
  }

  function BuildMemo(r: ExtractResult): string {
    var vendor, date := GetOr(r.vendorName, ""), GetOr(r.date, "");
    if vendor == "" then date
    else if date == "" then vendor
    else vendor + " \U{2014} " + date
  }

  function EntryLines(r: ExtractResult, total: int64, expense: string, credit: string, tax: string): seq<EntryLine> {
    if tax != "" && r.taxCents.Some? && r.subtotalCents.Some? then
      [EntryLine(expense, r.subtotalCents.value, 0), EntryLine(tax, r.taxCents.value, 0), EntryLine(credit, 0, total)]
    else
      [EntryLine(expense, total, 0), EntryLine(credit, 0, total)]
  }

  function BuildEntry(r: ExtractResult, expense: string, credit: string, tax: string): Result<DraftEntry, BuildError> {
    if r.totalCents.None? then Err(NoTotal)
    else if expense == "" || credit == "" then Err(AccountsRequired)
    else if r.totalCents.value <= 0 then Err(NonPositiveTotal(r.totalCents.value))
    else
      var total := r.totalCents.value;
      if tax != "" && r.taxCents.Some? && r.subtotalCents.Some?
         && Apart(Wrap(r.subtotalCents.value + r.taxCents.value), total)
      then Err(SplitMismatch(r.subtotalCents.value, r.taxCents.value, total))
      else
        var entry := DraftEntry(GetOr(r.date, ""), BuildMemo(r), EntryLines(r, total, expense, credit, tax), total);
        var issue := BalanceIssue(entry);
        if issue.Some? then Err(issue.value) else Ok(entry)
  }

  lemma {:induction false} FirstNegativeNone(lines: seq<EntryLine>)
    ensures FirstNegative(lines).None? <==> forall i :: 0 <= i < |lines| ==> lines[i].debit >= 0 && lines[i].credit >= 0
  {
    if lines != [] {
      var init := lines[..|lines| - 1];
      FirstNegativeNone(init);
      assert forall i :: 0 <= i < |init| ==> init[i] == lines[i];
    }
  }

  lemma SplitAddsUp(a: int64, b: int64, total: int64)
    requires a >= 0 && b >= 0 && Wrap(a + b) == total > 0
    ensures a + b == total
  {
    var k := WrapTurns(a + b);
  }

  /** A built entry balances in exact arithmetic, whatever int64 amounts went in: wrap-around can never
      make an unbalanced split pass. */
  lemma BuiltEntryBalances(r: ExtractResult, expense: string, credit: string, tax: string)
    requires BuildEntry(r, expense, credit, tax).Ok?
    ensures var e := BuildEntry(r, expense, credit, tax).value;
      && Debits(e.lines) == Credits(e.lines) == e.totalCents == r.totalCents.value
      && e.totalCents > 0
  {
    var e := BuildEntry(r, expense, credit, tax).value;
    FirstNegativeNone(e.lines);
    assert forall i :: 0 <= i < |e.lines| ==> e.lines[i].debit >= 0;
    if |e.lines| == 2 {
      SumsOfPair(e.lines[0], e.lines[1]);
      assert e.lines == [e.lines[0], e.lines[1]];
    } else {
      SumsOfPair(e.lines[0], e.lines[1]);
      SumsSnoc([e.lines[0], e.lines[1]], e.lines[2]);
      assert e.lines == [e.lines[0], e.lines[1]] + [e.lines[2]];
      SplitAddsUp(e.lines[0].debit, e.lines[1].debit, e.totalCents);
    }
  }

  /** Without a tax account the draft lines also satisfy every check that storing the draft makes. */
  lemma BuiltEntryIsStorable(r: ExtractResult, expense: string, credit: string)
    requires BuildEntry(r, expense, credit, "").Ok?
    ensures var e := BuildEntry(r, expense, credit, "").value;
      && e.lines == [EntryLine(expense, r.totalCents.value, 0), EntryLine(credit, 0, r.totalCents.value)]
      && LineConstraints(e.lines) && Accepted(e.lines)
  {
    BuiltEntryBalances(r, expense, credit, "");
  }

  /** Exactly when an entry is built. The two cents of tolerance allowed on a tax split never help: the
      split must be exact. */
  lemma BuiltExactlyWhen(r: ExtractResult, expense: string, credit: string, tax: string)
    ensures BuildEntry(r, expense, credit, tax).Ok? <==>
            && r.totalCents.Some? && r.totalCents.value > 0 && expense != "" && credit != ""
            && (tax != "" && r.taxCents.Some? && r.subtotalCents.Some? ==>
                  && r.subtotalCents.value >= 0 && r.taxCents.value >= 0
                  && r.subtotalCents.value + r.taxCents.value == r.totalCents.value)
  {
    if r.totalCents.Some? && r.totalCents.value > 0 && expense != "" && credit != "" {
      var total := r.totalCents.value;
      var lines := EntryLines(r, total, expense, credit, tax);
      FirstNegativeNone(lines);
      SumsOfPair(lines[0], lines[1]);
      if |lines| == 3 {
        SumsSnoc([lines[0], lines[1]], lines[2]);
        assert lines == [lines[0], lines[1]] + [lines[2]];
        assert lines[0].debit == r.subtotalCents.value && lines[1].debit == r.taxCents.value;
        if BuildEntry(r, expense, credit, tax).Ok? {
          BuiltEntryBalances(r, expense, credit, tax);
        }
      } else {
        assert lines == [lines[0], lines[1]];
      }
    }
  }

  // ---- The sequential run ----

  datatype FailedStage = AtExtract | AtVendor | AtClassify | AtBuildEntry

  /** Everything the run needs for one receipt; candidates retrieves vendors for an extracted name. */
  datatype RunInput = RunInput(
    ocrText: string, accounts: seq<AccountRef>,
    vendors: seq<VendorRef>, candidates: Option<string -> seq<VendorRef>>,
    creditAccount: string, taxAccount: string)

  datatype RunStatus = NeedsReview(stage: FailedStage, issues: seq<Issue>) | Ready

  datatype RunResult = RunResult(
    status: RunStatus, extract: Option<ExtractResult>,
    vendorMatch: Option<VendorMatchResult>, vendorId: Option<string>, proposed: Option<ProposedVendor>,
    classify: Option<ClassifyResult>, entry: Option<DraftEntry>)

  const BLANK_RESULT := RunResult(Ready, None, None, None, None, None, None)

  function Review(stage: FailedStage, issues: seq<Issue>, partial: RunResult): RunResult {
    partial.(status := NeedsReview(stage, issues))
  }

  function DefaultAccountFor(vendorId: string, candidates: seq<VendorRef>): string {
    if candidates == [] then ""
    else if candidates[0].id == vendorId then candidates[0].defaultAccount
    else DefaultAccountFor(vendorId, candidates[1..])
  }

  function CandidatesFor(inp: RunInput, vendorName: string): seq<VendorRef> {
    if inp.candidates.Some? then (inp.candidates.value)(vendorName) else inp.vendors
  }

  /** A matched vendor with a default account settles the classification without asking the AI. */
  function Memoized(res: RunResult, candidates: seq<VendorRef>): RunResult {
    if res.vendorId.None? then res
    else
      var acct := DefaultAccountFor(res.vendorId.value, candidates);
      if acct == "" then res
      else res.(classify := Some(ClassifyResult(acct, 1.0, "vendor default account")))
  }

  function RunBuild(inp: RunInput, extract: ExtractResult, res: RunResult): RunResult
    requires res.classify.Some?
  {
    match BuildEntry(extract, res.classify.value.accountCode, inp.creditAccount, inp.taxAccount)
    case Err(e) => Review(AtBuildEntry, [BuildFailed(e)], res)
    case Ok(entry) => res.(entry := Some(entry), status := Ready)
  }

  function RunClassify(ai: Prompt -> string, c: Codec, inp: RunInput, extract: ExtractResult,
      res: RunResult): RunResult {
    if res.classify.Some? then RunBuild(inp, extract, res)
    else
      match c.parseClassify(ai(ClassifyPrompt(extract, inp.accounts)))
      case Err(e) => Review(AtClassify, [InvalidJson(e)], res)
      case Ok(cl) =>
        var out := GateClassify(cl, inp.accounts);
        var res' := res.(classify := Some(cl));
        if !out.advance then Review(AtClassify, out.issues, res') else RunBuild(inp, extract, res')
  }

  function RunVendor(ai: Prompt -> string, c: Codec, inp: RunInput, extract: ExtractResult, res: RunResult): RunResult {
    if extract.vendorName.None? || extract.vendorName.value == "" then RunClassify(ai, c, inp, extract, res)
    else
      var vname := extract.vendorName.value;
      var candidates := CandidatesFor(inp, vname);
      var exact := ExactMatch(vname, candidates);
      if exact.Some? then
        RunClassify(ai, c, inp, extract, Memoized(res.(vendorId := exact), candidates))
      else
        match c.parseVendor(ai(VendorPrompt(vname, candidates)))
        case Err(e) => Review(AtVendor, [InvalidJson(e)], res)
        case Ok(vm) =>
          var out := GateVendorMatch(vm, candidates);
          var res' := res.(vendorMatch := Some(vm));
          if !out.advance then Review(AtVendor, out.issues, res')
          else
            RunClassify(ai, c, inp, extract,
                        Memoized(res'.(vendorId := vm.vendorId, proposed := vm.proposed), candidates))
  }

  /** pipeline.Run, for a model that always answers. */
  function Run(ai: Prompt -> string, c: Codec, inp: RunInput): RunResult {
    match c.parseExtract(ai(ExtractPrompt(inp.ocrText)))
    case Err(e) => Review(AtExtract, [InvalidJson(e)], BLANK_RESULT)
    case Ok(extract) =>
      var res := BLANK_RESULT.(extract := Some(extract));
      var out := GateExtract(extract);
      if !out.advance then Review(AtExtract, out.issues, res) else RunVendor(ai, c, inp, extract, res)
  }

  /** A result that is ready carries a balanced entry on the classified account; any other carries none. */
  ghost predicate Sound(res: RunResult) {
    match res.status
    case NeedsReview(_, _) => res.entry.None?
    case Ready =>
      && res.extract.Some? && res.classify.Some? && res.entry.Some? && res.entry.value.lines != []
      && Debits(res.entry.value.lines) == Credits(res.entry.value.lines) == res.entry.value.totalCents > 0
      && res.extract.value.totalCents == Some(res.entry.value.totalCents)
      && res.entry.value.lines[0].account == res.classify.value.accountCode
  }

  ghost predicate Partial(res: RunResult, extract: ExtractResult) {
    res.extract == Some(extract) && res.entry.None?
  }

  lemma RunBuildSound(inp: RunInput, extract: ExtractResult, res: RunResult)
    requires res.classify.Some? && Partial(res, extract)
    ensures Sound(RunBuild(inp, extract, res))
  {
    var account := res.classify.value.accountCode;
    if BuildEntry(extract, account, inp.creditAccount, inp.taxAccount).Ok? {
      BuiltEntryBalances(extract, account, inp.creditAccount, inp.taxAccount);
    }
  }

  lemma RunClassifySound(ai: Prompt -> string, c: Codec, inp: RunInput, extract: ExtractResult, res: RunResult)
    requires Partial(res, extract)
    ensures Sound(RunClassify(ai, c, inp, extract, res))
  {
    if res.classify.Some? {
      RunBuildSound(inp, extract, res);
    } else {
      var parsed := c.parseClassify(ai(ClassifyPrompt(extract, inp.accounts)));
      if parsed.Ok? {
        RunBuildSound(inp, extract, res.(classify := Some(parsed.value)));
      }
    }
  }

  /** Nothing is fabricated past a failed stage: a run is ready exactly when it carries an entry, and that
      entry balances, carries the extracted total and charges the classified account. */
  lemma ReadyMeansBalanced(ai: Prompt -> string, c: Codec, inp: RunInput)
    ensures Sound(Run(ai, c, inp))
  {
    var parsed := c.parseExtract(ai(ExtractPrompt(inp.ocrText)));
    if parsed.Ok? && GateExtract(parsed.value).advance {
      var extract := parsed.value;
      var res := BLANK_RESULT.(extract := Some(extract));
      if extract.vendorName.None? || extract.vendorName.value == "" {
        RunClassifySound(ai, c, inp, extract, res);
      } else {
        var candidates := CandidatesFor(inp, extract.vendorName.value);
        var exact := ExactMatch(extract.vendorName.value, candidates);
        RunClassifySound(ai, c, inp, extract, Memoized(res.(vendorId := exact), candidates));
        var vm := c.parseVendor(ai(VendorPrompt(extract.vendorName.value, candidates)));
        if vm.Ok? {
          var res' := res.(vendorMatch := Some(vm.value), vendorId := vm.value.vendorId, proposed := vm.value.proposed);
          RunClassifySound(ai, c, inp, extract, Memoized(res', candidates));
        }
      }
    }
  }
}
