/** The vendor-match stage: name folding, the deterministic exact pass and the checks on an AI answer. */
module VendorMatch {
  import opened Wrappers
  import opened Text

  /** A candidate vendor offered to the matcher; defaultAccount is "" when none was learned. */
  datatype VendorRef = VendorRef(id: string, name: string, taxId: string, matchPattern: string, defaultAccount: string)

  datatype ProposedVendor =
    ProposedVendor(name: string, matchPattern: string, taxId: Option<string>, website: Option<string>)

  datatype VendorMatchResult = VendorMatchResult(
    vendorId: Option<string>, isNewVendor: bool, proposed: Option<ProposedVendor>, confidence: real, reason: string)

  datatype VendorIssue =
    | BadConfidence(confidence: real)
    | IdOfNewVendor
    | UnknownVendor(id: string)
    | NoProposal
    | BlankProposalName
    | BlankProposalPattern
    | Undecided

  predicate IsAlnum(c: char) {
    'a' <= c <= 'z' || '0' <= c <= '9'
  }

  function KeepAlnum(s: string): string {
    if s == "" then ""
    else KeepAlnum(s[..|s| - 1]) + if IsAlnum(s[|s| - 1]) then [s[|s| - 1]] else ""
  }

  const SUFFIXES := ["inc", "llc", "ltd", "co", "corp", "company"]

  function TrimSuffixes(n: string, suffixes: seq<string>): string {
    if suffixes == [] then n
    else TrimSuffix(TrimSuffixes(n, suffixes[..|suffixes| - 1]), suffixes[|suffixes| - 1])
  }

  /** What NormalizeVendorName returns: lower case, ASCII letters and digits only, one pass of suffix removal. */
  function Normalized(s: string): string {
    TrimSuffixes(KeepAlnum(ToLower(s)), SUFFIXES)
  }

  method NormalizeVendorName(s: string) returns (n: string)
    ensures n == Normalized(s)
  {
    var lower := ToLower(s);
    n := "";
    for i := 0 to |lower|
      invariant n == KeepAlnum(lower[..i])
    {
      assert lower[..i + 1][..i] == lower[..i];
      if IsAlnum(lower[i]) {
        n := n + [lower[i]];
      }
    }
    assert lower[..|lower|] == lower;
    ghost var folded := n;
    for i := 0 to |SUFFIXES|
      invariant n == TrimSuffixes(folded, SUFFIXES[..i])
    {
      assert SUFFIXES[..i + 1][..i] == SUFFIXES[..i];
      n := TrimSuffix(n, SUFFIXES[i]);
    }
    assert SUFFIXES[..|SUFFIXES|] == SUFFIXES;
  }

  // ---- What folding means ----

  lemma {:induction false} KeepAlnumConcat(a: string, b: string)
    ensures KeepAlnum(a + b) == KeepAlnum(a) + KeepAlnum(b)
  {
    if b == "" {
      assert a + b == a;
    } else {
      assert (a + b)[..|a + b| - 1] == a + b[..|b| - 1];
      KeepAlnumConcat(a, b[..|b| - 1]);
    }
  }

  /** A text is folded piece by piece. */
  lemma FoldConcat(a: string, b: string)
    ensures KeepAlnum(ToLower(a + b)) == KeepAlnum(ToLower(a)) + KeepAlnum(ToLower(b))
  {
    assert ToLower(a + b) == ToLower(a) + ToLower(b);
    KeepAlnumConcat(ToLower(a), ToLower(b));
  }

  /** A letter becomes lower case, a digit stays, and any other ASCII character is dropped. */
  lemma FoldChar(c: char)
    requires c < '\U{80}'
    ensures KeepAlnum(ToLower([c])) ==
            if 'a' <= c <= 'z' || '0' <= c <= '9' then [c]
            else if 'A' <= c <= 'Z' then [(c as int + 32) as char]
            else ""
  {
    assert ToLower([c]) == [Lower(c)];
    assert [Lower(c)][..0] == "";
  }

  predicate EndsWith(s: string, p: string) {
    |p| <= |s| && s[|s| - |p|..] == p
  }

  /** A name that ends with none of the company suffixes. */
  predicate Plain(stem: string) {
    !EndsWith(stem, "inc") && !EndsWith(stem, "llc") && !EndsWith(stem, "ltd") && !EndsWith(stem, "co")
    && !EndsWith(stem, "corp") && !EndsWith(stem, "company")
  }

  lemma TrimOnto(stem: string, p: string)
    ensures TrimSuffix(stem + p, p) == stem
    ensures !EndsWith(stem, p) ==> TrimSuffix(stem, p) == stem
  {
    assert (stem + p)[|stem|..] == p && (stem + p)[..|stem|] == stem;
  }

  lemma TrimSuffixesSnoc(n: string, suffixes: seq<string>, p: string)
    ensures TrimSuffixes(n, suffixes + [p]) == TrimSuffix(TrimSuffixes(n, suffixes), p)
  {
    assert (suffixes + [p])[..|suffixes|] == suffixes;
  }

  lemma TrimSuffixesUnrolled(n: string)
    ensures TrimSuffixes(n, SUFFIXES) ==
            TrimSuffix(TrimSuffix(TrimSuffix(TrimSuffix(TrimSuffix(TrimSuffix(n,
              "inc"), "llc"), "ltd"), "co"), "corp"), "company")
  {
    TrimSuffixesSnoc(n, [], "inc");
    TrimSuffixesSnoc(n, [] + ["inc"], "llc");
    TrimSuffixesSnoc(n, [] + ["inc"] + ["llc"], "ltd");
    TrimSuffixesSnoc(n, [] + ["inc"] + ["llc"] + ["ltd"], "co");
    TrimSuffixesSnoc(n, [] + ["inc"] + ["llc"] + ["ltd"] + ["co"], "corp");
    TrimSuffixesSnoc(n, [] + ["inc"] + ["llc"] + ["ltd"] + ["co"] + ["corp"], "company");
    assert SUFFIXES == [] + ["inc"] + ["llc"] + ["ltd"] + ["co"] + ["corp"] + ["company"];
  }

  /** A company suffix does not tell two names apart. */
  lemma SuffixDropped(s: string, stem: string, p: string)
    requires Plain(stem) && p in {"", "inc", "llc", "ltd", "co", "corp", "company"}
    requires KeepAlnum(ToLower(s)) == stem + p
    ensures Normalized(s) == stem
  {
    TrimSuffixesUnrolled(stem + p);
    TrimOnto(stem, p);
    TrimOnto(stem, "inc");
    TrimOnto(stem, "llc");
    TrimOnto(stem, "ltd");
    TrimOnto(stem, "co");
    TrimOnto(stem, "corp");
    TrimOnto(stem, "company");
    var n := stem + p;
    assert p != "" ==> n[|n| - 1] == p[|p| - 1];
    assert |p| >= 2 ==> n[|n| - 2] == p[|p| - 2];
    assert p == "" ==> n == stem;
  }

  /** The first candidate with the same folded name; a name that folds to nothing matches nobody. */
  function FirstExact(want: string, candidates: seq<VendorRef>): Option<string> {
    if want == "" || candidates == [] then None
    else if Normalized(candidates[0].name) == want then Some(candidates[0].id)
    else FirstExact(want, candidates[1..])
  }

  function ExactMatch(rawVendor: string, candidates: seq<VendorRef>): Option<string> {
    FirstExact(Normalized(rawVendor), candidates)
  }

  method ExactVendorMatch(rawVendor: string, candidates: seq<VendorRef>) returns (id: Option<string>)
    ensures id == ExactMatch(rawVendor, candidates)
  {
    var want := NormalizeVendorName(rawVendor);
    if want == "" {
      return None;
    }
    for i := 0 to |candidates|
      invariant ExactMatch(rawVendor, candidates) == FirstExact(want, candidates[i..])
    {
      assert candidates[i..][1..] == candidates[i + 1..];
      var name := NormalizeVendorName(candidates[i].name);
      if name == want {
        return Some(candidates[i].id);
      }
    }
    return None;
  }

  ghost predicate Offered(id: string, candidates: seq<VendorRef>) {
    exists i :: 0 <= i < |candidates| && candidates[i].id == id
  }

  lemma {:induction false} FirstExactOffered(want: string, candidates: seq<VendorRef>)
    ensures FirstExact(want, candidates).Some? ==> Offered(FirstExact(want, candidates).value, candidates)
  {
    if want != "" && candidates != [] {
      if Normalized(candidates[0].name) != want {
        FirstExactOffered(want, candidates[1..]);
        if FirstExact(want, candidates).Some? {
          var i :| 0 <= i < |candidates| - 1 && candidates[1..][i].id == FirstExact(want, candidates).value;
          assert candidates[i + 1].id == FirstExact(want, candidates).value;
        }
      }
    }
  }

  predicate HasId(id: string, candidates: seq<VendorRef>) {
    candidates != [] && (candidates[0].id == id || HasId(id, candidates[1..]))
  }

  lemma {:induction false} HasIdIsOffered(id: string, candidates: seq<VendorRef>)
    ensures HasId(id, candidates) <==> Offered(id, candidates)
  {
    if candidates != [] {
      HasIdIsOffered(id, candidates[1..]);
      if Offered(id, candidates[1..]) {
        var i :| 0 <= i < |candidates| - 1 && candidates[1..][i].id == id;
        assert candidates[i + 1].id == id;
      }
      if Offered(id, candidates) {
        var i :| 0 <= i < |candidates| && candidates[i].id == id;
        if i > 0 {
          assert candidates[1..][i - 1].id == id;
        }
      }
    }
  }

  /** The deterministic checks on an AI answer, in the order they are reported. */
  function Issues(r: VendorMatchResult, candidates: seq<VendorRef>): seq<VendorIssue> {
    (if r.confidence < 0.0 || r.confidence > 1.0 then [BadConfidence(r.confidence)] else [])
    + if r.vendorId.Some? && r.isNewVendor then [IdOfNewVendor]
      else if r.vendorId.Some? then
        (if HasId(r.vendorId.value, candidates) then [] else [UnknownVendor(r.vendorId.value)])
      else if r.isNewVendor then
        (if r.proposed.None? then [NoProposal]
         else if Blank(r.proposed.value.name) then [BlankProposalName]
         else if Blank(r.proposed.value.matchPattern) then [BlankProposalPattern]
         else [])
      else [Undecided]
  }

  method ValidateVendorMatch(r: VendorMatchResult, candidates: seq<VendorRef>) returns (issues: seq<VendorIssue>)
    ensures issues == Issues(r, candidates)
  {
    issues := [];
    if r.confidence < 0.0 || r.confidence > 1.0 {
      issues := issues + [BadConfidence(r.confidence)];
    }
    if r.vendorId.Some? && r.isNewVendor {
      issues := issues + [IdOfNewVendor];
    } else if r.vendorId.Some? {
      var found := false;
      var i := 0;
      while i < |candidates|
        invariant 0 <= i <= |candidates|
        invariant !found
        invariant HasId(r.vendorId.value, candidates) == HasId(r.vendorId.value, candidates[i..])
      {
        assert candidates[i..][1..] == candidates[i + 1..];
        if candidates[i].id == r.vendorId.value {
          found := true;
          break;
        }
        i := i + 1;
      }
      if !found {
        issues := issues + [UnknownVendor(r.vendorId.value)];
      }
    } else if r.isNewVendor {
      if r.proposed.None? {
        issues := issues + [NoProposal];
      } else if Blank(r.proposed.value.name) {
        issues := issues + [BlankProposalName];
      } else if Blank(r.proposed.value.matchPattern) {
        issues := issues + [BlankProposalPattern];
      }
    } else {
      issues := issues + [Undecided];
    }
  }

  /** A clean answer either names an offered vendor or proposes a usable new one, never both. */
  lemma CleanAnswer(r: VendorMatchResult, candidates: seq<VendorRef>)
    requires Issues(r, candidates) == []
    ensures 0.0 <= r.confidence <= 1.0
    ensures r.vendorId.Some? <==> !r.isNewVendor
    ensures r.vendorId.Some? ==> Offered(r.vendorId.value, candidates)
    ensures r.vendorId.None? ==>
      r.proposed.Some? && !Blank(r.proposed.value.name) && !Blank(r.proposed.value.matchPattern)
  {
    if r.vendorId.Some? {
      HasIdIsOffered(r.vendorId.value, candidates);
    }
  }
}
