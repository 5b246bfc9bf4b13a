/** Where the sequential run ends, and why: the verdict of every stage, read off the AI's answers. */
module RunVerdict {
  import opened Wrappers
  import opened Entries
  import opened VendorMatch
  import opened Pipeline
  import Int64

  predicate Trusted(x: ExtractResult) {
    Consistent(x) && x.confidence >= 0.75
  }

  predicate Named(x: ExtractResult) {
    x.vendorName.Some? && x.vendorName.value != ""
  }

  /** The vendors offered for the extracted name. */
  function Offer(inp: RunInput, x: ExtractResult): seq<VendorRef>
    requires Named(x)
  {
    if inp.candidates.Some? then (inp.candidates.value)(x.vendorName.value) else inp.vendors
  }

  /** The i-th vendor is the first whose name folds to the same letters. */
  ghost predicate FirstSame(name: string, offer: seq<VendorRef>, i: int) {
    && 0 <= i < |offer| && Normalized(name) != "" && Normalized(offer[i].name) == Normalized(name)
    && forall j :: 0 <= j < i ==> Normalized(offer[j].name) != Normalized(name)
  }

  ghost predicate Known(name: string, offer: seq<VendorRef>) {
    exists i :: FirstSame(name, offer, i)
  }

  function VendorAnswer(ai: Prompt -> string, c: Codec, inp: RunInput, x: ExtractResult)
    : Result<VendorMatchResult, string>
    requires Named(x)
  {
    c.parseVendor(ai(VendorPrompt(x.vendorName.value, Offer(inp, x))))
  }

  function AccountAnswer(ai: Prompt -> string, c: Codec, inp: RunInput, x: ExtractResult)
    : Result<ClassifyResult, string>
  {
    c.parseClassify(ai(ClassifyPrompt(x, inp.accounts)))
  }

  /** A named vendor that is not known by its name needs a trusted, decided answer. */
  ghost predicate VendorClears(ai: Prompt -> string, c: Codec, inp: RunInput, x: ExtractResult) {
    Named(x) && !Known(x.vendorName.value, Offer(inp, x)) ==>
      var vm := VendorAnswer(ai, c, inp, x);
      vm.Ok? && 0.85 <= vm.value.confidence <= 1.0 && Decided(vm.value, Offer(inp, x))
  }

  /** The vendor with this id was found: by name, or else by the answer. */
  ghost predicate VendorIs(ai: Prompt -> string, c: Codec, inp: RunInput, x: ExtractResult, id: string) {
    && Named(x)
    && if Known(x.vendorName.value, Offer(inp, x))
       then exists i :: FirstSame(x.vendorName.value, Offer(inp, x), i) && Offer(inp, x)[i].id == id
       else VendorAnswer(ai, c, inp, x).Ok? && VendorAnswer(ai, c, inp, x).value.vendorId == Some(id)
  }

  /** The first vendor offered under this id has this default account. */
  ghost predicate DefaultIs(offer: seq<VendorRef>, id: string, account: string) {
    account != "" && exists i ::
      0 <= i < |offer| && offer[i].id == id && offer[i].defaultAccount == account
      && forall j :: 0 <= j < i ==> offer[j].id != id
  }

  /** The vendor that was found brings its account along. */
  ghost predicate AccountOfVendor(ai: Prompt -> string, c: Codec, inp: RunInput, x: ExtractResult, account: string) {
    exists id :: VendorIs(ai, c, inp, x, id) && DefaultIs(Offer(inp, x), id, account)
  }

  /** The answer chose an offered account with enough confidence. */
  ghost predicate AccountOfAnswer(ai: Prompt -> string, c: Codec, inp: RunInput, x: ExtractResult, account: string) {
    var cl := AccountAnswer(ai, c, inp, x);
    cl.Ok? && cl.value.accountCode == account && 0.80 <= cl.value.confidence <= 1.0
    && OfferedCode(account, inp.accounts)
  }

  /** The account to charge: the vendor's, or else the answer's. */
  ghost predicate AccountIs(ai: Prompt -> string, c: Codec, inp: RunInput, x: ExtractResult, account: string) {
    if exists a :: AccountOfVendor(ai, c, inp, x, a) then AccountOfVendor(ai, c, inp, x, account)
    else AccountOfAnswer(ai, c, inp, x, account)
  }

  predicate TaxSplit(inp: RunInput, x: ExtractResult) {
    inp.taxAccount != "" && x.taxCents.Some? && x.subtotalCents.Some?
  }

  /** An entry can be built on the account. */
  predicate Postable(inp: RunInput, x: ExtractResult, account: string) {
    && x.totalCents.Some? && x.totalCents.value > 0 && account != "" && inp.creditAccount != ""
    && (TaxSplit(inp, x) ==>
          && x.subtotalCents.value >= 0 && x.taxCents.value >= 0
          && x.subtotalCents.value + x.taxCents.value == x.totalCents.value)
  }

  /** The entry: the total against the credit account, with the tax apart when it is known. */
  predicate EntryIs(entry: DraftEntry, inp: RunInput, x: ExtractResult, account: string)
    requires Postable(inp, x, account)
  {
    var total := x.totalCents.value;
    var vendor, date := GetOr(x.vendorName, ""), GetOr(x.date, "");
    && entry.totalCents == total && entry.date == date
    && entry.memo == (if vendor == "" || date == "" then vendor + date else vendor + " \U{2014} " + date)
    && entry.lines ==
         (if TaxSplit(inp, x)
          then [EntryLine(account, x.subtotalCents.value, 0), EntryLine(inp.taxAccount, x.taxCents.value, 0)]
          else [EntryLine(account, total, 0)])
         + [EntryLine(inp.creditAccount, 0, total)]
  }

  /** Why none can be built: what is missing is reported in this order. */
  predicate Unbuildable(e: BuildError, inp: RunInput, x: ExtractResult, account: string) {
    if x.totalCents.None? then e == NoTotal
    else if account == "" || inp.creditAccount == "" then e == AccountsRequired
    else if x.totalCents.value <= 0 then e == NonPositiveTotal(x.totalCents.value)
    else
      && TaxSplit(inp, x)
      && var split := x.subtotalCents.value as int + x.taxCents.value;
         if !Near(split - x.totalCents.value)
         then e == SplitMismatch(x.subtotalCents.value, x.taxCents.value, x.totalCents.value)
         else if x.subtotalCents.value < 0 then e == NegativeAmount(account)
         else if x.taxCents.value < 0 then e == NegativeAmount(inp.taxAccount)
         else e.Unbalanced?
  }

  predicate ParkedAt(res: RunResult, stage: FailedStage, issues: seq<Issue>) {
    res.status == NeedsReview(stage, issues) && res.entry.None?
  }

  // ---- What the stages' functions mean ----

  lemma {:induction false} FirstExactMeans(name: string, offer: seq<VendorRef>)
    ensures ExactMatch(name, offer).Some? <==> Known(name, offer)
    ensures forall i :: FirstSame(name, offer, i) ==> ExactMatch(name, offer) == Some(offer[i].id)
  {
    if Normalized(name) != "" && offer != [] && Normalized(offer[0].name) != Normalized(name) {
      FirstExactMeans(name, offer[1..]);
      forall i ensures FirstSame(name, offer, i) <==> FirstSame(name, offer[1..], i - 1) {
        assert forall j :: 1 <= j < |offer| ==> offer[j] == offer[1..][j - 1];
        if FirstSame(name, offer[1..], i - 1) {
          forall j | 0 <= j < i ensures Normalized(offer[j].name) != Normalized(name) {
            assert j > 0 ==> offer[1..][j - 1] == offer[j];
          }
        }
      }
      if Known(name, offer[1..]) {
        var i :| FirstSame(name, offer[1..], i);
        assert FirstSame(name, offer, i + 1);
      }
    } else if Normalized(name) != "" && offer != [] {
      assert FirstSame(name, offer, 0);
    }
  }

  lemma {:induction false} DefaultMeans(id: string, offer: seq<VendorRef>, account: string)
    ensures DefaultIs(offer, id, account) <==> account != "" && DefaultAccountFor(id, offer) == account
  {
    if offer != [] && offer[0].id != id {
      DefaultMeans(id, offer[1..], account);
      if DefaultIs(offer[1..], id, account) {
        var i :| 0 <= i < |offer| - 1 && offer[1..][i].id == id && offer[1..][i].defaultAccount == account
            && forall j :: 0 <= j < i ==> offer[1..][j].id != id;
        assert offer[i + 1] == offer[1..][i];
        forall j | 0 <= j < i + 1 ensures offer[j].id != id {
          assert j > 0 ==> offer[1..][j - 1] == offer[j];
        }
      }
      if DefaultIs(offer, id, account) {
        var i :| 0 <= i < |offer| && offer[i].id == id && offer[i].defaultAccount == account
            && forall j :: 0 <= j < i ==> offer[j].id != id;
        assert offer[1..][i - 1] == offer[i];
        forall j | 0 <= j < i - 1 ensures offer[1..][j].id != id {
          assert offer[1..][j] == offer[j + 1];
        }
      }
    } else if offer != [] && DefaultAccountFor(id, offer) == account {
      assert offer[0].id == id;
    }
  }

  /** At most one vendor is found. */
  lemma OneVendor(ai: Prompt -> string, c: Codec, inp: RunInput, x: ExtractResult, id: string)
    requires VendorIs(ai, c, inp, x, id)
    ensures Known(x.vendorName.value, Offer(inp, x)) ==>
      ExactMatch(x.vendorName.value, Offer(inp, x)) == Some(id)
  {
    FirstExactMeans(x.vendorName.value, Offer(inp, x));
  }

  /** Carrying a vendor on to the classify stage. */
  lemma MemoizedMeans(ai: Prompt -> string, c: Codec, inp: RunInput, x: ExtractResult, res: RunResult)
    requires Named(x) && res.classify.None?
    requires forall id :: VendorIs(ai, c, inp, x, id) <==> res.vendorId == Some(id)
    ensures var res' := Memoized(res, Offer(inp, x));
      && forall account :: AccountOfVendor(ai, c, inp, x, account) <==>
           res'.classify.Some? && res'.classify.value.accountCode == account
  {
    forall account
      ensures AccountOfVendor(ai, c, inp, x, account) <==>
        var res' := Memoized(res, Offer(inp, x)); res'.classify.Some? && res'.classify.value.accountCode == account
    {
      if res.vendorId.Some? {
        DefaultMeans(res.vendorId.value, Offer(inp, x), account);
      }
    }
  }

  /** The run carries what was read and found, however it ends. */
  ghost predicate Carries(ai: Prompt -> string, c: Codec, inp: RunInput, x: ExtractResult, res: RunResult) {
    && res.extract == Some(x)
    && (forall id :: VendorIs(ai, c, inp, x, id) <==> res.vendorId == Some(id))
    && if Named(x) && !Known(x.vendorName.value, Offer(inp, x))
       then
         var vm := VendorAnswer(ai, c, inp, x);
         vm.Ok? && res.vendorMatch == Some(vm.value) && res.proposed == vm.value.proposed
       else res.vendorMatch.None? && res.proposed.None?
  }

  /** What a stage hands on: nothing is settled but the vendor's account. */
  ghost predicate HandedOn(ai: Prompt -> string, c: Codec, inp: RunInput, x: ExtractResult, res: RunResult) {
    && Partial(res, x) && Carries(ai, c, inp, x, res)
    && forall account ::
         AccountOfVendor(ai, c, inp, x, account) <==> res.classify.Some? && res.classify.value.accountCode == account
  }

  lemma KnownVendor(ai: Prompt -> string, c: Codec, inp: RunInput, x: ExtractResult, res: RunResult)
    returns (res': RunResult)
    requires res == BLANK_RESULT.(extract := Some(x)) && Named(x) && Known(x.vendorName.value, Offer(inp, x))
    ensures RunVendor(ai, c, inp, x, res) == RunClassify(ai, c, inp, x, res') && HandedOn(ai, c, inp, x, res')
  {
    var name, offer := x.vendorName.value, Offer(inp, x);
    FirstExactMeans(name, offer);
    var found := res.(vendorId := ExactMatch(name, offer));
    var i :| FirstSame(name, offer, i);
    forall id ensures VendorIs(ai, c, inp, x, id) <==> found.vendorId == Some(id) {}
    MemoizedMeans(ai, c, inp, x, found);
    res' := Memoized(found, offer);
  }

  lemma AskedVendor(ai: Prompt -> string, c: Codec, inp: RunInput, x: ExtractResult, res: RunResult)
    returns (res': RunResult)
    requires res == BLANK_RESULT.(extract := Some(x)) && Named(x) && !Known(x.vendorName.value, Offer(inp, x))
    requires VendorClears(ai, c, inp, x)
    ensures RunVendor(ai, c, inp, x, res) == RunClassify(ai, c, inp, x, res') && HandedOn(ai, c, inp, x, res')
  {
    var name, offer, vm := x.vendorName.value, Offer(inp, x), VendorAnswer(ai, c, inp, x).value;
    FirstExactMeans(name, offer);
    CleanVendorAnswer(vm, offer);
    var answered := res.(vendorMatch := Some(vm), vendorId := vm.vendorId, proposed := vm.proposed);
    MemoizedMeans(ai, c, inp, x, answered);
    res' := Memoized(answered, offer);
  }

  lemma VendorHandsOn(ai: Prompt -> string, c: Codec, inp: RunInput, x: ExtractResult, res: RunResult)
    returns (res': RunResult)
    requires res == BLANK_RESULT.(extract := Some(x)) && VendorClears(ai, c, inp, x)
    ensures RunVendor(ai, c, inp, x, res) == RunClassify(ai, c, inp, x, res') && HandedOn(ai, c, inp, x, res')
  {
    if !Named(x) {
      res' := res;
    } else if Known(x.vendorName.value, Offer(inp, x)) {
      res' := KnownVendor(ai, c, inp, x, res);
    } else {
      res' := AskedVendor(ai, c, inp, x, res);
    }
  }

  /** Why the vendor stage parks. */
  function VendorIssues(ai: Prompt -> string, c: Codec, inp: RunInput, x: ExtractResult): seq<Issue>
    requires Named(x)
  {
    match VendorAnswer(ai, c, inp, x)
    case Err(e) => [InvalidJson(e)]
    case Ok(vm) => VendorProblems(VendorMatch.Issues(vm, Offer(inp, x)))
  }

  lemma VendorParks(ai: Prompt -> string, c: Codec, inp: RunInput, x: ExtractResult, res: RunResult)
    requires Partial(res, x) && !VendorClears(ai, c, inp, x)
    ensures Named(x) && ParkedAt(RunVendor(ai, c, inp, x, res), AtVendor, VendorIssues(ai, c, inp, x))
  {
    FirstExactMeans(x.vendorName.value, Offer(inp, x));
    var vm := VendorAnswer(ai, c, inp, x);
    if vm.Ok? {
      CleanVendorAnswer(vm.value, Offer(inp, x));
    }
  }

  function AccountIssues(ai: Prompt -> string, c: Codec, inp: RunInput, x: ExtractResult): seq<Issue> {
    match AccountAnswer(ai, c, inp, x)
    case Err(e) => [InvalidJson(e)]
    case Ok(cl) => ClassifyIssues(cl, inp.accounts)
  }

  ghost predicate Built(res: RunResult, inp: RunInput, x: ExtractResult, account: string) {
    if Postable(inp, x, account)
    then res.status == Ready && res.entry.Some? && EntryIs(res.entry.value, inp, x, account)
    else exists e :: Unbuildable(e, inp, x, account) && ParkedAt(res, AtBuildEntry, [BuildFailed(e)])
  }

  lemma FirstNegativeSnoc(lines: seq<EntryLine>, l: EntryLine)
    ensures FirstNegative(lines + [l]) ==
            if FirstNegative(lines).Some? then FirstNegative(lines)
            else if l.debit < 0 || l.credit < 0 then Some(l) else None
  {
    assert (lines + [l])[..|lines|] == lines;
  }

  /** The check on a split whose credit side is positive. */
  lemma SplitIssue(e: DraftEntry, a: EntryLine, b: EntryLine, c: EntryLine)
    requires e.lines == [a, b, c] && a.credit == 0 && b.credit == 0 && c == EntryLine(c.account, 0, e.totalCents)
    requires e.totalCents > 0 && BalanceIssue(e).Some?
    ensures BalanceIssue(e).value ==
            if a.debit < 0 then NegativeAmount(a.account)
            else if b.debit < 0 then NegativeAmount(b.account)
            else Unbalanced(Int64.Wrap(a.debit + b.debit), e.totalCents)
  {
    FirstNegativeSnoc([], a);
    FirstNegativeSnoc([a], b);
    FirstNegativeSnoc([a, b], c);
    SumsOfPair(a, b);
    SumsSnoc([a, b], c);
    assert [] + [a] == [a] && [a] + [b] == [a, b] && [a, b] + [c] == [a, b, c];
  }

  lemma UnbuildableMeans(inp: RunInput, x: ExtractResult, account: string)
    requires BuildEntry(x, account, inp.creditAccount, inp.taxAccount).Err?
    ensures Unbuildable(BuildEntry(x, account, inp.creditAccount, inp.taxAccount).error, inp, x, account)
  {
    BuiltExactlyWhen(x, account, inp.creditAccount, inp.taxAccount);
    if TaxSplit(inp, x) && x.totalCents.Some? && x.totalCents.value > 0 && account != "" && inp.creditAccount != "" {
      ApartIsNotNear(x.subtotalCents.value + x.taxCents.value, x.totalCents.value);
      var total := x.totalCents.value;
      var lines := EntryLines(x, total, account, inp.creditAccount, inp.taxAccount);
      var entry := DraftEntry(GetOr(x.date, ""), BuildMemo(x), lines, total);
      if BalanceIssue(entry).Some? {
        SplitIssue(entry, lines[0], lines[1], lines[2]);
      }
    }
  }

  lemma BuildVerdict(inp: RunInput, x: ExtractResult, res: RunResult)
    requires Partial(res, x) && res.classify.Some?
    ensures Built(RunBuild(inp, x, res), inp, x, res.classify.value.accountCode)
  {
    var account := res.classify.value.accountCode;
    BuiltExactlyWhen(x, account, inp.creditAccount, inp.taxAccount);
    var built := BuildEntry(x, account, inp.creditAccount, inp.taxAccount);
    if built.Err? {
      UnbuildableMeans(inp, x, account);
      assert ParkedAt(RunBuild(inp, x, res), AtBuildEntry, [BuildFailed(built.error)]);
    }
  }

  /** The classify stage: the account is settled, or the run parks there. */
  lemma ClassifyVerdict(ai: Prompt -> string, c: Codec, inp: RunInput, x: ExtractResult, res: RunResult)
    requires HandedOn(ai, c, inp, x, res)
    ensures var end := RunClassify(ai, c, inp, x, res);
      if exists account :: AccountIs(ai, c, inp, x, account)
      then forall account :: AccountIs(ai, c, inp, x, account) ==> Built(end, inp, x, account)
      else ParkedAt(end, AtClassify, AccountIssues(ai, c, inp, x))
  {
    if res.classify.Some? {
      assert AccountOfVendor(ai, c, inp, x, res.classify.value.accountCode);
      assert AccountIs(ai, c, inp, x, res.classify.value.accountCode);
      BuildVerdict(inp, x, res);
    } else {
      var cl := AccountAnswer(ai, c, inp, x);
      if cl.Ok? {
        CleanClassification(cl.value, inp.accounts);
        BuildVerdict(inp, x, res.(classify := Some(cl.value)));
        assert AccountOfAnswer(ai, c, inp, x, cl.value.accountCode) ==> AccountIs(ai, c, inp, x, cl.value.accountCode);
      }
    }
  }

  lemma ClassifyCarries(ai: Prompt -> string, c: Codec, inp: RunInput, x: ExtractResult, res: RunResult)
    requires Carries(ai, c, inp, x, res)
    ensures Carries(ai, c, inp, x, RunClassify(ai, c, inp, x, res))
  {
    var end := RunClassify(ai, c, inp, x, res);
    assert end.extract == res.extract && end.vendorId == res.vendorId && end.vendorMatch == res.vendorMatch;
    assert end.proposed == res.proposed;
  }

  /** Exactly where the sequential run ends. It parks at the first stage that does not clear, with that
      stage's issues and without an entry; if all clear, the run is ready exactly when an entry can be built on
      the account found, and carries that entry. */
  lemma RunEndsExactly(ai: Prompt -> string, c: Codec, inp: RunInput)
    ensures var end, read := Run(ai, c, inp), c.parseExtract(ai(ExtractPrompt(inp.ocrText)));
      if read.Err? then ParkedAt(end, AtExtract, [InvalidJson(read.error)])
      else if !Trusted(read.value) then ParkedAt(end, AtExtract, ExtractIssues(read.value))
      else if !VendorClears(ai, c, inp, read.value) then
        Named(read.value) && ParkedAt(end, AtVendor, VendorIssues(ai, c, inp, read.value))
      else if exists account :: AccountIs(ai, c, inp, read.value, account) then
        forall account :: AccountIs(ai, c, inp, read.value, account) ==> Built(end, inp, read.value, account)
      else ParkedAt(end, AtClassify, AccountIssues(ai, c, inp, read.value))
    ensures var read := c.parseExtract(ai(ExtractPrompt(inp.ocrText)));
      read.Ok? && Trusted(read.value) && VendorClears(ai, c, inp, read.value) ==>
        Carries(ai, c, inp, read.value, Run(ai, c, inp))
  {
    var read := c.parseExtract(ai(ExtractPrompt(inp.ocrText)));
    if read.Ok? {
      CleanExtraction(read.value);
      var res := BLANK_RESULT.(extract := Some(read.value));
      if Trusted(read.value) && VendorClears(ai, c, inp, read.value) {
        var res' := VendorHandsOn(ai, c, inp, read.value, res);
        ClassifyVerdict(ai, c, inp, read.value, res');
        ClassifyCarries(ai, c, inp, read.value, res');
      } else if Trusted(read.value) {
        VendorParks(ai, c, inp, read.value, res);
      }
    }
  }

  /** Nobody's account is charged but one that was offered and chosen with confidence, or the found vendor's. */
  lemma ReadyChargesWhatWasFound(ai: Prompt -> string, c: Codec, inp: RunInput)
    requires Run(ai, c, inp).status.Ready?
    ensures var read := c.parseExtract(ai(ExtractPrompt(inp.ocrText)));
      && read.Ok? && Trusted(read.value) && VendorClears(ai, c, inp, read.value)
      && exists account ::
           && AccountIs(ai, c, inp, read.value, account) && Postable(inp, read.value, account)
           && Run(ai, c, inp).entry.Some? && EntryIs(Run(ai, c, inp).entry.value, inp, read.value, account)
  {
    RunEndsExactly(ai, c, inp);
    var x := c.parseExtract(ai(ExtractPrompt(inp.ocrText))).value;
    var account :| AccountIs(ai, c, inp, x, account);
    assert Built(Run(ai, c, inp), inp, x, account);
  }
}
