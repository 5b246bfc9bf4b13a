/** What the batched pipeline does to one receipt: the receipt_pipeline_state row, the gather and apply
    step of each AI stage, and the proof that together they follow the sequential run. */
module ReceiptStages {
  import opened Wrappers
  import opened Entries
  import opened VendorMatch
  import opened Pipeline
  import opened Text
  import VendorRanking

  datatype Stage = Extract | Vendor | Classify | Done | InReview

  datatype Status = Pending | InFlight

  /** The three registered batch kinds, one per AI stage. */
  datatype Kind = ExtractKind | VendorKind | ClassifyKind

  function StageOf(k: Kind): Stage {
    match k
    case ExtractKind => Extract
    case VendorKind => Vendor
    case ClassifyKind => Classify
  }

  function KindForStage(s: Stage): Option<Kind> {
    match s
    case Extract => Some(ExtractKind)
    case Vendor => Some(VendorKind)
    case Classify => Some(ClassifyKind)
    case _ => None
  }

  function NextStage(s: Stage): Stage {
    match s
    case Extract => Vendor
    case Vendor => Classify
    case _ => Done
  }

  /** How many AI stages may still lie ahead. */
  function StageRank(s: Stage): nat {
    match s
    case Extract => 3
    case Vendor => 2
    case Classify => 1
    case _ => 0
  }

  /** The draft that finishing a receipt stores; an empty date means the day it is stored. */
  datatype Draft = Draft(date: string, memo: string, lines: seq<EntryLine>)

  /** One row of receipt_pipeline_state with the receipt's draft. results counts the AI results applied so
      far; it is history, not a column. */
  datatype Row = Row(
    stage: Stage, status: Status,
    extractJson: Option<string>, vendorJson: Option<string>, classified: Option<string>,
    failedStage: Option<FailedStage>, issues: seq<Issue>,
    draft: Option<Draft>, results: nat)

  const NEW_ROW := Row(Extract, Pending, None, None, None, None, [], None, 0)

  /** The surroundings of a run: the AI, the decoders, and the tables the stages only read. */
  datatype World = World(
    ai: Prompt -> string,
    codec: Codec,
    ocrText: string -> string,
    entityOf: string -> string,
    vendorsOf: string -> seq<VendorRef>,
    vendorById: string -> Option<VendorRef>,
    accountsOf: string -> seq<AccountRef>,
    cashOf: string -> string,
    registered: set<Kind>)

  const CANDIDATE_LIMIT := 8

  function Candidates(w: World, receipt: string, vendorName: string): seq<VendorRef> {
    VendorRanking.Shortlist(vendorName, w.vendorsOf(w.entityOf(receipt)), CANDIDATE_LIMIT)
  }

  // ---- Row updates ----

  function Claimed(row: Row): Row {
    row.(status := InFlight)
  }

  function ResetRow(row: Row): Row {
    if row.status == InFlight then row.(status := Pending) else row
  }

  function Advance(row: Row): Row {
    row.(stage := NextStage(row.stage), status := Pending)
  }

  function Park(row: Row, failed: FailedStage, issues: seq<Issue>): Row {
    row.(stage := InReview, status := Pending, failedStage := Some(failed), issues := issues)
  }

  function Stored(json: Option<string>): string {
    GetOr(json, "")
  }

  /** The vendor_json of a deterministic exact match. */
  function MatchedJson(w: World, id: string): string {
    w.codec.showVendor(ExactAnswer(id))
  }

  /** The default account of the vendor matched in vendor_json, or "". */
  function VendorDefault(w: World, vendorJson: Option<string>): string {
    if Stored(vendorJson) == "" then ""
    else
      var vm := w.codec.parseVendor(Stored(vendorJson));
      if vm.Err? || vm.value.vendorId.None? then ""
      else
        var v := w.vendorById(vm.value.vendorId.value);
        if v.None? then "" else v.value.defaultAccount
  }

  /** The terminal step: build the draft, store it and finish, or park. */
  function Finalize(w: World, receipt: string, row: Row, extract: ExtractResult, account: string): Row {
    match BuildEntry(extract, account, w.cashOf(w.entityOf(receipt)), "")
    case Err(e) => Park(row, AtBuildEntry, [BuildFailed(e)])
    case Ok(entry) =>
      if !Accepted(entry.lines) then Park(row, AtBuildEntry, [DraftRejected])
      else Advance(row.(draft := Some(Draft(entry.date, entry.memo, entry.lines)), classified := Some(account)))
  }

  // ---- Gather: settle the receipt without the AI, or ask ----

  datatype Gathered = Settled(row: Row) | Ask(prompt: Prompt)

  function GatherExtract(w: World, receipt: string, row: Row): Gathered {
    var text := w.ocrText(receipt);
    if Blank(text) then Settled(Park(row, AtExtract, [NoOcrText])) else Ask(ExtractPrompt(text))
  }

  function GatherVendor(w: World, receipt: string, row: Row): Gathered {
    var parsed := w.codec.parseExtract(Stored(row.extractJson));
    if parsed.Err? || parsed.value.vendorName.None? || Blank(parsed.value.vendorName.value) then
      Settled(Advance(row.(vendorJson := None)))
    else
      var name := parsed.value.vendorName.value;
      var candidates := Candidates(w, receipt, name);
      var exact := ExactMatch(name, candidates);
      if exact.Some? then Settled(Advance(row.(vendorJson := Some(MatchedJson(w, exact.value)))))
      else Ask(VendorPrompt(name, candidates))
  }

  function GatherClassify(w: World, receipt: string, row: Row): Gathered {
    var parsed := w.codec.parseExtract(Stored(row.extractJson));
    if parsed.Err? then Settled(Park(row, AtClassify, [UnreadableState]))
    else
      var account := VendorDefault(w, row.vendorJson);
      if account != "" then Settled(Finalize(w, receipt, row, parsed.value, account))
      else Ask(ClassifyPrompt(parsed.value, w.accountsOf(w.entityOf(receipt))))
  }

  function GatherRow(w: World, receipt: string, row: Row, k: Kind): Gathered {
    match k
    case ExtractKind => GatherExtract(w, receipt, row)
    case VendorKind => GatherVendor(w, receipt, row)
    case ClassifyKind => GatherClassify(w, receipt, row)
  }

  // ---- Apply: parse, gate, advance or park ----

  function ApplyExtract(w: World, row: Row, output: string): Row {
    match w.codec.parseExtract(output)
    case Err(e) => Park(row, AtExtract, [InvalidJson(e)])
    case Ok(r) =>
      var out := GateExtract(r);
      if !out.advance then Park(row, AtExtract, out.issues)
      else Advance(row.(extractJson := Some(w.codec.showExtract(r))))
  }

  /** The shortlist, derived again from the stored extraction. */
  function CandidatesForRef(w: World, receipt: string, row: Row): seq<VendorRef> {
    var parsed := w.codec.parseExtract(Stored(row.extractJson));
    if parsed.Err? || parsed.value.vendorName.None? then []
    else Candidates(w, receipt, parsed.value.vendorName.value)
  }

  function ApplyVendor(w: World, receipt: string, row: Row, output: string): Row {
    match w.codec.parseVendor(output)
    case Err(e) => Park(row, AtVendor, [InvalidJson(e)])
    case Ok(r) =>
      var out := GateVendorMatch(r, CandidatesForRef(w, receipt, row));
      if !out.advance then Park(row, AtVendor, out.issues)
      else Advance(row.(vendorJson := Some(w.codec.showVendor(r))))
  }

  function ApplyClassify(w: World, receipt: string, row: Row, output: string): Row {
    var parsed := w.codec.parseExtract(Stored(row.extractJson));
    if parsed.Err? then Park(row, AtClassify, [UnreadableState])
    else
      match w.codec.parseClassify(output)
      case Err(e) => Park(row, AtClassify, [InvalidJson(e)])
      case Ok(cl) =>
        var out := GateClassify(cl, w.accountsOf(w.entityOf(receipt)));
        if !out.advance then Park(row, AtClassify, out.issues)
        else Finalize(w, receipt, row, parsed.value, cl.accountCode)
  }

  function FailedStageOf(k: Kind): FailedStage {
    match k
    case ExtractKind => AtExtract
    case VendorKind => AtVendor
    case ClassifyKind => AtClassify
  }

  /** The row after an answer of kind k, or after the provider's error for the item. */
  function Answered(w: World, receipt: string, row: Row, k: Kind, output: string, error: Option<string>): Row {
    if error.Some? then Park(row, FailedStageOf(k), [ProviderError(error.value)])
    else
      match k
      case ExtractKind => ApplyExtract(w, row, output)
      case VendorKind => ApplyVendor(w, receipt, row, output)
      case ClassifyKind => ApplyClassify(w, receipt, row, output)
  }

  /** One result for one receipt. The stage a kind advances to is fixed by the kind, whatever stage the row
      is in. */
  function ApplyRow(w: World, receipt: string, row: Row, k: Kind, output: string, error: Option<string>): Row {
    Answered(w, receipt, row.(stage := StageOf(k)), k, output, error).(results := row.results + 1)
  }

  /** An applied receipt is no longer held, and has moved strictly forward. */
  lemma ApplyMovesForward(w: World, receipt: string, row: Row, k: Kind, output: string, error: Option<string>)
    ensures var next := ApplyRow(w, receipt, row, k, output, error);
      && next.status == Pending && next.stage in {NextStage(StageOf(k)), InReview}
      && StageRank(next.stage) < StageRank(StageOf(k))
      && next.results == row.results + 1
  {
  }

  /** So has a receipt that was settled without the AI. */
  lemma GatherMovesForward(w: World, receipt: string, row: Row, k: Kind)
    requires row.stage == StageOf(k) && GatherRow(w, receipt, row, k).Settled?
    ensures var next := GatherRow(w, receipt, row, k).row;
      && next.status == Pending && next.stage in {NextStage(row.stage), InReview}
      && StageRank(next.stage) < StageRank(row.stage)
      && next.results == row.results
  {
  }

  // ---- Against the sequential run ----

  function InputFor(w: World, receipt: string): RunInput {
    RunInput(w.ocrText(receipt), w.accountsOf(w.entityOf(receipt)), [],
             Some(name => Candidates(w, receipt, name)), w.cashOf(w.entityOf(receipt)), "")
  }

  /** The worker's sequential path: a receipt without readable text is parked, any other goes through
      pipeline.Run. */
  function Sequential(w: World, receipt: string): RunResult {
    if Blank(w.ocrText(receipt)) then Review(AtExtract, [NoOcrText], BLANK_RESULT)
    else Run(w.ai, w.codec, InputFor(w, receipt))
  }

  /** Stored encodings decode again, a stored match is not empty, and a listed vendor is the row that its id
      selects. */
  ghost predicate GoodTables(w: World) {
    && RoundTrips(w.codec)
    && (forall e, v :: v in w.vendorsOf(e) ==> w.vendorById(v.id) == Some(v))
    && (forall v :: w.codec.showVendor(v) != "")
  }

  /** The extract stage ends with an extraction. */
  predicate Extracted(w: World, receipt: string) {
    var parsed := w.codec.parseExtract(w.ai(ExtractPrompt(w.ocrText(receipt))));
    !Blank(w.ocrText(receipt)) && parsed.Ok? && GateExtract(parsed.value).advance
  }

  function ExtractOf(w: World, receipt: string): ExtractResult
    requires Extracted(w, receipt)
  {
    w.codec.parseExtract(w.ai(ExtractPrompt(w.ocrText(receipt)))).value
  }

  /** The extraction names a vendor that consists of spaces only: the sequential run asks the AI about it,
      the batched path skips the vendor stage. */
  predicate SpacesOnlyName(w: World, receipt: string) {
    && Extracted(w, receipt) && ExtractOf(w, receipt).vendorName.Some?
    && ExtractOf(w, receipt).vendorName.value != "" && Blank(ExtractOf(w, receipt).vendorName.value)
  }

  /** The AI's answer about a vendor name clears the gate when there are no candidates. */
  predicate ClearsWithoutCandidates(w: World, name: string) {
    var vm := w.codec.parseVendor(w.ai(VendorPrompt(name, [])));
    vm.Ok? && GateVendorMatch(vm.value, []).advance
  }

  /** When the batched path ends where the sequential run ends: if the vendor name is made of spaces only, the
      sequential run's extra question is answered cleanly. */
  predicate Comparable(w: World, receipt: string) {
    SpacesOnlyName(w, receipt) ==> ClearsWithoutCandidates(w, ExtractOf(w, receipt).vendorName.value)
  }

  /** The vendor stage of this receipt ended with vendorJson. */
  ghost predicate VendorSettled(w: World, receipt: string, vendorJson: Option<string>)
    requires Extracted(w, receipt)
  {
    var name := ExtractOf(w, receipt).vendorName;
    if name.None? || Blank(name.value) then vendorJson == None
    else
      var candidates := Candidates(w, receipt, name.value);
      var exact := ExactMatch(name.value, candidates);
      if exact.Some? then vendorJson == Some(MatchedJson(w, exact.value))
      else
        var vm := w.codec.parseVendor(w.ai(VendorPrompt(name.value, candidates)));
        vm.Ok? && GateVendorMatch(vm.value, candidates).advance && vendorJson == Some(w.codec.showVendor(vm.value))
  }

  /** The row ended where the sequential run ends: done with its draft, or in review with its issues. */
  ghost predicate Agrees(row: Row, res: RunResult) {
    match res.status
    case Ready =>
      && row.stage == Done && res.entry.Some?
      && row.draft == Some(Draft(res.entry.value.date, res.entry.value.memo, res.entry.value.lines))
    case NeedsReview(stage, issues) =>
      row.stage == InReview && row.failedStage == Some(stage) && row.issues == issues
  }

  /** The row is where the sequential run passes through, or has ended: then it agrees with the sequential
      run exactly when the two are comparable. */
  ghost predicate Tracks(w: World, receipt: string, row: Row) {
    match row.stage
    case Extract => true
    case Vendor =>
      && Extracted(w, receipt) && row.extractJson == Some(w.codec.showExtract(ExtractOf(w, receipt)))
    case Classify =>
      && Extracted(w, receipt) && row.extractJson == Some(w.codec.showExtract(ExtractOf(w, receipt)))
      && VendorSettled(w, receipt, row.vendorJson)
    case _ => Agrees(row, Sequential(w, receipt)) <==> Comparable(w, receipt)
  }

  /** The account the vendor row carries is the one the shortlist carries. */
  lemma {:induction false} DefaultFromCandidates(w: World, id: string, candidates: seq<VendorRef>)
    requires forall v :: v in candidates ==> w.vendorById(v.id) == Some(v)
    requires Offered(id, candidates)
    ensures w.vendorById(id).Some? && w.vendorById(id).value.defaultAccount == DefaultAccountFor(id, candidates)
  {
    if candidates[0].id != id {
      var i :| 0 <= i < |candidates| && candidates[i].id == id;
      assert candidates[1..][i - 1].id == id;
      DefaultFromCandidates(w, id, candidates[1..]);
    } else {
      assert candidates[0] in candidates;
    }
  }

  /** At most eight vendors of the receipt's entity are offered, those that score at least 0.2; and all of those
      when there are fewer than eight. */
  lemma CandidatesAre(w: World, receipt: string, name: string)
    ensures var offer, pool := Candidates(w, receipt, name), w.vendorsOf(w.entityOf(receipt));
      && |offer| <= 8
      && (forall v :: v in offer ==> v in pool && VendorRanking.Score(Normalized(name), v) >= 0.2)
      && (|offer| < 8 && Normalized(name) != "" ==>
            forall v :: v in pool && VendorRanking.Score(Normalized(name), v) >= 0.2 ==> v in offer)
  {
    if Normalized(name) != "" {
      var score := VendorRanking.Scorer(Normalized(name));
      var dropped := VendorRanking.ShortlistKeepsTheBest(name, w.vendorsOf(w.entityOf(receipt)), 8);
      assert forall v :: score(v) == VendorRanking.Score(Normalized(name), v);
    }
  }

  lemma CandidatesAreRows(w: World, receipt: string, name: string)
    requires GoodTables(w)
    ensures forall v :: v in Candidates(w, receipt, name) ==> w.vendorById(v.id) == Some(v)
  {
    VendorRanking.ShortlistIsFromPool(name, w.vendorsOf(w.entityOf(receipt)), CANDIDATE_LIMIT);
  }

  function Classified(account: string): Option<ClassifyResult> {
    if account == "" then None else Some(ClassifyResult(account, 1.0, "vendor default account"))
  }

  /** Once the vendor stage is settled, the sequential run continues at classify with the account that the
      stored vendor_json stands for. */
  lemma RunReachesClassify(w: World, receipt: string, vendorJson: Option<string>) returns (res: RunResult)
    requires GoodTables(w) && Comparable(w, receipt)
    requires Extracted(w, receipt) && VendorSettled(w, receipt, vendorJson)
    ensures Sequential(w, receipt) == RunClassify(w.ai, w.codec, InputFor(w, receipt), ExtractOf(w, receipt), res)
    ensures res.classify == Classified(VendorDefault(w, vendorJson))
  {
    var ex, inp := ExtractOf(w, receipt), InputFor(w, receipt);
    var start := BLANK_RESULT.(extract := Some(ex));
    if ex.vendorName.None? || ex.vendorName.value == "" {
      assert ex.vendorName.Some? ==> Blank("");
      res := start;
    } else {
      var name := ex.vendorName.value;
      var candidates := Candidates(w, receipt, name);
      CandidatesAreRows(w, receipt, name);
      if Blank(name) {
        BlankNameHasNoCandidates(w, receipt, name);
      }
      if ExactMatch(name, candidates).Some? {
        res := ExactReachesClassify(w, receipt, vendorJson, name, candidates);
      } else {
        res := AnswerReachesClassify(w, receipt, vendorJson, name, candidates);
      }
    }
  }

  lemma ExactReachesClassify(w: World, receipt: string, vendorJson: Option<string>, name: string,
                             candidates: seq<VendorRef>) returns (res: RunResult)
    requires GoodTables(w) && Extracted(w, receipt)
    requires name != "" && ExtractOf(w, receipt).vendorName == Some(name) && candidates == Candidates(w, receipt, name)
    requires forall v :: v in candidates ==> w.vendorById(v.id) == Some(v)
    requires ExactMatch(name, candidates).Some?
    requires vendorJson == Some(MatchedJson(w, ExactMatch(name, candidates).value))
    ensures Sequential(w, receipt) == RunClassify(w.ai, w.codec, InputFor(w, receipt), ExtractOf(w, receipt), res)
    ensures res.classify == Classified(VendorDefault(w, vendorJson))
  {
    var exact := ExactMatch(name, candidates);
    FirstExactOffered(Normalized(name), candidates);
    DefaultFromCandidates(w, exact.value, candidates);
    res := Memoized(BLANK_RESULT.(extract := Some(ExtractOf(w, receipt)), vendorId := exact), candidates);
  }

  lemma AnswerReachesClassify(w: World, receipt: string, vendorJson: Option<string>, name: string,
                              candidates: seq<VendorRef>) returns (res: RunResult)
    requires GoodTables(w) && Extracted(w, receipt)
    requires name != "" && ExtractOf(w, receipt).vendorName == Some(name) && candidates == Candidates(w, receipt, name)
    requires forall v :: v in candidates ==> w.vendorById(v.id) == Some(v)
    requires ExactMatch(name, candidates).None?
    requires var vm := w.codec.parseVendor(w.ai(VendorPrompt(name, candidates)));
      && vm.Ok? && GateVendorMatch(vm.value, candidates).advance
      && vendorJson == if Blank(name) then None else Some(w.codec.showVendor(vm.value))
    requires Blank(name) ==> candidates == []
    ensures Sequential(w, receipt) == RunClassify(w.ai, w.codec, InputFor(w, receipt), ExtractOf(w, receipt), res)
    ensures res.classify == Classified(VendorDefault(w, vendorJson))
  {
    var vm := w.codec.parseVendor(w.ai(VendorPrompt(name, candidates))).value;
    var answered := BLANK_RESULT.(extract := Some(ExtractOf(w, receipt)), vendorMatch := Some(vm),
                                  vendorId := vm.vendorId, proposed := vm.proposed);
    res := Memoized(answered, candidates);
    assert w.codec.parseVendor(w.codec.showVendor(vm)) == Ok(vm);
    AnswerDefault(w, vendorJson, vm, Blank(name), answered, candidates);
  }

  /** The stored answer stands for the default account that the run takes from the shortlist. */
  lemma AnswerDefault(w: World, vendorJson: Option<string>, vm: VendorMatchResult, dropped: bool, res: RunResult,
                      candidates: seq<VendorRef>)
    requires GateVendorMatch(vm, candidates).advance && (dropped ==> candidates == [])
    requires forall v :: v in candidates ==> w.vendorById(v.id) == Some(v)
    requires vendorJson == if dropped then None else Some(w.codec.showVendor(vm))
    requires w.codec.showVendor(vm) != "" && w.codec.parseVendor(w.codec.showVendor(vm)) == Ok(vm)
    requires res.classify == None && res.vendorId == vm.vendorId
    ensures Memoized(res, candidates).classify == Classified(VendorDefault(w, vendorJson))
  {
    CleanAnswer(vm, candidates);
    if vm.vendorId.Some? {
      DefaultFromCandidates(w, vm.vendorId.value, candidates);
    }
  }

  lemma {:induction false} BlankIsSpaces(s: string)
    requires Blank(s)
    ensures forall i :: 0 <= i < |s| ==> IsSpace(s[i])
  {
    if s != "" && IsSpace(s[0]) {
      BlankIsSpaces(s[1..]);
      assert forall i :: 1 <= i < |s| ==> s[i] == s[1..][i - 1];
    } else if s != "" {
      TrimRightKeepsHead(s);
    }
  }

  lemma {:induction false} TrimRightKeepsHead(s: string)
    requires s != "" && !IsSpace(s[0])
    ensures TrimRight(s) != ""
  {
    if IsSpace(s[|s| - 1]) {
      TrimRightKeepsHead(s[..|s| - 1]);
    }
  }

  lemma {:induction false} SpacesFoldAway(s: string)
    requires forall i :: 0 <= i < |s| ==> IsSpace(s[i])
    ensures KeepAlnum(ToLower(s)) == ""
  {
    if s != "" {
      SpacesFoldAway(s[..|s| - 1]);
      assert ToLower(s)[..|s| - 1] == ToLower(s[..|s| - 1]);
      assert ToLower(s)[|s| - 1] == Lower(s[|s| - 1]);
    }
  }

  lemma BlankNameHasNoCandidates(w: World, receipt: string, name: string)
    requires Blank(name)
    ensures Normalized(name) == "" && Candidates(w, receipt, name) == []
  {
    BlankIsSpaces(name);
    SpacesFoldAway(name);
    assert Normalized(name) == "" by { NoSuffixes(SUFFIXES); }
  }

  lemma {:induction false} NoSuffixes(suffixes: seq<string>)
    ensures TrimSuffixes("", suffixes) == ""
  {
    if suffixes != [] {
      NoSuffixes(suffixes[..|suffixes| - 1]);
    }
  }

  /** A spaces-only name whose extra question is not answered cleanly parks the sequential run there. */
  lemma IncomparableParksAtVendor(w: World, receipt: string)
    requires !Comparable(w, receipt)
    ensures Sequential(w, receipt).status.NeedsReview? && Sequential(w, receipt).status.stage == AtVendor
  {
    BlankNameHasNoCandidates(w, receipt, ExtractOf(w, receipt).vendorName.value);
  }

  /** Both paths park a receipt without readable text, at the same stage and for the same reason. */
  lemma BlankTextParksBoth(w: World, receipt: string, row: Row)
    requires Blank(w.ocrText(receipt)) && row.stage == Extract
    ensures GatherRow(w, receipt, row, ExtractKind).Settled?
    ensures Agrees(GatherRow(w, receipt, row, ExtractKind).row, Sequential(w, receipt)) && Comparable(w, receipt)
  {
  }

  /** Building the draft agrees with the last stage of the run. */
  lemma FinalizeAgrees(w: World, receipt: string, row: Row, ex: ExtractResult, res: RunResult)
    requires res.classify.Some? && row.stage == Classify
    ensures Agrees(Finalize(w, receipt, row, ex, res.classify.value.accountCode),
        RunBuild(InputFor(w, receipt), ex, res))
  {
    var account, cash := res.classify.value.accountCode, w.cashOf(w.entityOf(receipt));
    if BuildEntry(ex, account, cash, "").Ok? {
      BuiltEntryIsStorable(ex, account, cash);
    }
  }

  /** Settling a receipt without the AI keeps it on the track of the sequential run. */
  lemma GatherTracks(w: World, receipt: string, row: Row, k: Kind)
    requires GoodTables(w)
    requires row.stage == StageOf(k) && Tracks(w, receipt, row)
    ensures GatherRow(w, receipt, row, k).Settled? ==> Tracks(w, receipt, GatherRow(w, receipt, row, k).row)
  {
    match k
    case ExtractKind =>
    case VendorKind =>
    case ClassifyKind =>
      var account := VendorDefault(w, row.vendorJson);
      if account != "" {
        if Comparable(w, receipt) {
          var res := RunReachesClassify(w, receipt, row.vendorJson);
          FinalizeAgrees(w, receipt, row, ExtractOf(w, receipt), res);
        } else {
          IncomparableParksAtVendor(w, receipt);
        }
      }
  }

  /** Applying the AI's own answer keeps it on the track too. */
  lemma ApplyTracks(w: World, receipt: string, row: Row, k: Kind, prompt: Prompt)
    requires GoodTables(w)
    requires row.stage == StageOf(k) && Tracks(w, receipt, row)
    requires GatherRow(w, receipt, row, k) == Ask(prompt)
    ensures Tracks(w, receipt, ApplyRow(w, receipt, row, k, w.ai(prompt), None))
  {
    var next := Answered(w, receipt, row, k, w.ai(prompt), None);
    assert row.(stage := StageOf(k)) == row;
    match k
    case ExtractKind => ApplyExtractTracks(w, receipt, row, prompt);
    case VendorKind => ApplyVendorTracks(w, receipt, row, prompt);
    case ClassifyKind => ApplyClassifyTracks(w, receipt, row, prompt);
    CountingKeepsTrack(w, receipt, next, row.results + 1);
  }

  lemma CountingKeepsTrack(w: World, receipt: string, row: Row, n: nat)
    requires Tracks(w, receipt, row)
    ensures Tracks(w, receipt, row.(results := n))
  {
  }

  lemma ApplyExtractTracks(w: World, receipt: string, row: Row, prompt: Prompt)
    requires row.stage == Extract && GatherExtract(w, receipt, row) == Ask(prompt)
    ensures Tracks(w, receipt, ApplyExtract(w, row, w.ai(prompt)))
  {
  }

  lemma ApplyVendorTracks(w: World, receipt: string, row: Row, prompt: Prompt)
    requires GoodTables(w)
    requires row.stage == Vendor && Tracks(w, receipt, row)
    requires GatherVendor(w, receipt, row) == Ask(prompt)
    ensures Tracks(w, receipt, ApplyVendor(w, receipt, row, w.ai(prompt)))
  {
  }

  lemma ApplyClassifyTracks(w: World, receipt: string, row: Row, prompt: Prompt)
    requires GoodTables(w)
    requires row.stage == Classify && Tracks(w, receipt, row)
    requires GatherClassify(w, receipt, row) == Ask(prompt)
    ensures Tracks(w, receipt, ApplyClassify(w, receipt, row, w.ai(prompt)))
  {
    if Comparable(w, receipt) {
      var res := RunReachesClassify(w, receipt, row.vendorJson);
      var cl := w.codec.parseClassify(w.ai(prompt));
      if cl.Ok? && GateClassify(cl.value, w.accountsOf(w.entityOf(receipt))).advance {
        FinalizeAgrees(w, receipt, row, ExtractOf(w, receipt), res.(classify := Some(cl.value)));
      }
    } else {
      IncomparableParksAtVendor(w, receipt);
    }
  }

  // ---- The hypotheses can be met ----

  const FOUND := VendorRef("v1", "Acme", "", "acme", "food")

  function ReadReceipt(s: string): Result<ExtractResult, string> {
    if s == "" then Err("empty")
    else Ok(ExtractResult(Some(s), None, None, None, None, Some(500), [], 0.9))
  }

  function ReadMatch(s: string): Result<VendorMatchResult, string> {
    if s == "" then Err("empty") else Ok(ExactAnswer(s[1..]))
  }

  /** A codec over short texts: an extraction is its vendor name, a match is a mark and its vendor id. */
  const SAMPLE_CODEC := Codec(
    ReadReceipt, ReadMatch, s => Ok(ClassifyResult(s, 1.0, "")),
    (e: ExtractResult) => GetOr(e.vendorName, ""), (v: VendorMatchResult) => "=" + GetOr(v.vendorId, ""))

  const SAMPLE_WORLD := World(
    prompt => "Acme", SAMPLE_CODEC, receipt => "receipt text", receipt => "entity", entity => [FOUND],
    id => if id == "v1" then Some(FOUND) else None, entity => [], entity => "cash",
    {ExtractKind, VendorKind, ClassifyKind})

  lemma SampleCodecRoundTrips()
    ensures RoundTrips(SAMPLE_CODEC)
  {
    forall s | ReadReceipt(s).Ok?
      ensures ReadReceipt(SAMPLE_CODEC.showExtract(ReadReceipt(s).value)) == ReadReceipt(s) {}
    forall id ensures ReadMatch(SAMPLE_CODEC.showVendor(ExactAnswer(id))) == Ok(ExactAnswer(id)) {
      assert ("=" + id)[1..] == id;
    }
    forall s | ReadMatch(s).Ok?
      ensures ReadMatch(SAMPLE_CODEC.showVendor(ReadMatch(s).value)) == ReadMatch(s)
    {
      assert ("=" + s[1..])[1..] == s[1..];
    }
  }

  /** Some surroundings satisfy everything that the refinement asks of them. */
  lemma SampleTablesAreGood()
    ensures GoodTables(SAMPLE_WORLD)
  {
    SampleCodecRoundTrips();
  }
}
