/** The salvage chain that turns the remote model's reply text into a move
    (`parseGeminiJson`, `normalizeActionKind` and the decision that
    `requestGeminiMove` builds in services/ai/decisionEngine.ts). The string
    stages are modelled concretely; `JSON.parse`, `loosen` and
    `salvageByRegex` are parameters. */
module ResponseParser {
  import opened Text
  import opened Gems
  import opened Entities

  /** The fields of a parsed reply that the decision reads. */
  datatype Parsed = Parsed(kind: Option<string>, cardId: Option<string>, fromReserve: Option<bool>,
                           reserveFromDeckLevel: Option<Level>, gems: Option<seq<string>>,
                           reasoning: Option<string>)

  /** A reply that names only its kind, as the keyword and prefix salvages build it. */
  function KindOnly(kind: string): Parsed {
    Parsed(Some(kind), None, None, None, None, None)
  }

  // ------------------------------------------------------------ fences

  /** The number of backticks `s` starts with. */
  function LeadTicks(s: string): (n: nat)
    ensures n <= |s| && forall i :: 0 <= i < n ==> s[i] == '`'
    ensures n < |s| ==> s[n] != '`'
  {
    if |s| > 0 && s[0] == '`' then 1 + LeadTicks(s[1..]) else 0
  }

  /** The `/```json/i` alternative matches at the start of `s`. */
  predicate StartsWithJsonFence(s: string) {
    |s| >= 7 && Lower(s[..7]) == "```json"
  }

  /** `text.replace(/```json|```/gi, '')`: a left-to-right scan that drops
      every match, trying the longer alternative first. */
  function DropFences(s: string): (r: string)
    ensures |r| <= |s|
  {
    if StartsWithJsonFence(s) then DropFences(s[7..])
    else if StartsWith(s, "```") then DropFences(s[3..])
    else if |s| == 0 then ""
    else [s[0]] + DropFences(s[1..])
  }

  /** Text without a backtick is kept as it is. */
  lemma {:induction false} DropFencesPlain(s: string)
    requires Avoids(s, '`')
    ensures DropFences(s) == s
    decreases |s|
  {
    if |s| > 0 {
      assert s[0] != '`';
      DropFencesPlain(s[1..]);
      assert [s[0]] + s[1..] == s;
    }
  }

  /** No fence survives: the result holds no three backticks in a row. */
  lemma {:induction false} DropFencesClean(s: string)
    ensures LeadTicks(DropFences(s)) <= 2
    ensures !Contains(DropFences(s), "```")
  {
    if StartsWithJsonFence(s) {
      DropFencesClean(s[7..]);
    } else if StartsWith(s, "```") {
      DropFencesClean(s[3..]);
    } else if |s| > 0 {
      var rest := DropFences(s[1..]);
      DropFencesClean(s[1..]);
      assert ([s[0]] + rest)[1..] == rest;
      if s[0] == '`' {
        KeptTickSmall(s);
        FewTicksKept(s[1..]);
        NoFenceAfterTick(rest);
      } else {
        NoFenceAfterPlain(s[0], rest);
      }
    }
  }

  /** A text that does not start with three backticks starts with at most two. */
  lemma KeptTickSmall(s: string)
    requires |s| > 0 && s[0] == '`' && !StartsWith(s, "```")
    ensures LeadTicks(s[1..]) <= 1
  {
    if |s| > 1 && s[1] == '`' {
      assert s[1..][1..] == s[2..];
    }
  }

  /** Dropping fences never lengthens a short run of leading backticks. */
  lemma {:induction false} FewTicksKept(s: string)
    requires LeadTicks(s) <= 1
    ensures LeadTicks(DropFences(s)) <= LeadTicks(s)
  {
    if |s| > 0 && s[0] == '`' {
      assert !StartsWith(s, "```") && !StartsWithJsonFence(s) by {
        if |s| >= 2 { assert s[1] != '`'; }
      }
      var rest := DropFences(s[1..]);
      assert LeadTicks(s[1..]) == 0;
      FewTicksKept(s[1..]);
      assert LeadTicks([s[0]] + rest) == 1 + LeadTicks(rest) by {
        assert ([s[0]] + rest)[1..] == rest;
      }
    } else if |s| > 0 {
      assert !StartsWith(s, "```") && !StartsWithJsonFence(s);
      assert DropFences(s)[0] == s[0];
    }
  }

  /** A backtick before a text of no fence and at most one leading backtick
      makes no fence. */
  lemma NoFenceAfterTick(rest: string)
    requires LeadTicks(rest) <= 1 && !Contains(rest, "```")
    ensures !Contains("`" + rest, "```")
  {
    var t := "`" + rest;
    assert t[1..] == rest;
    assert !StartsWith(t, "```") by {
      if |rest| >= 2 && rest[0] == '`' {
        assert rest[1..][0] == rest[1];
      }
    }
  }

  /** A character other than a backtick before a text of no fence makes no fence. */
  lemma NoFenceAfterPlain(c: char, rest: string)
    requires c != '`' && !Contains(rest, "```")
    ensures !Contains([c] + rest, "```")
  {
    var t := [c] + rest;
    assert t[1..] == rest;
    assert !StartsWith(t, "```") by {
      if |t| >= 3 {
        assert t[..3][0] == c;
      }
    }
  }

  /** `stripFences`: the fences dropped, then the text trimmed. */
  function StripFences(text: string): string {
    Trim(DropFences(text))
  }

  // -------------------------------------------------------- brace block

  /** `extractBraceBlock`: from the first `{` to the last `}`, inclusive,
      when the first comes before the last. */
  function ExtractBraceBlock(text: string): (r: Option<string>)
    ensures r.Some? <==> exists i, j :: 0 <= i < j < |text| && text[i] == '{' && text[j] == '}'
    ensures r.Some? ==> |r.value| >= 2 && r.value[0] == '{' && r.value[|r.value| - 1] == '}'
    ensures r.Some? ==> r.value == text[IndexOf(text, '{')..LastIndexOf(text, '}') + 1]
  {
    var first := IndexOf(text, '{');
    var last := LastIndexOf(text, '}');
    if first == -1 || last == -1 || last <= first then None
    else Some(text[first..last + 1])
  }

  // ----------------------------------------------------------- salvage

  /** `salvageByKeyword`: the first action word the upper-cased text
      contains, tested in the order TAKE, RESERVE, BUY, PASS. */
  function SalvageByKeyword(text: string): (r: Option<Parsed>)
    ensures var upper := Upper(text);
            (r == Some(KindOnly("TAKE_GEMS")) <==> Contains(upper, "TAKE"))
            && (r == Some(KindOnly("RESERVE")) <==> !Contains(upper, "TAKE") && Contains(upper, "RESERVE"))
            && (r == Some(KindOnly("BUY")) <==>
                  !Contains(upper, "TAKE") && !Contains(upper, "RESERVE") && Contains(upper, "BUY"))
            && (r == Some(KindOnly("PASS")) <==>
                  !Contains(upper, "TAKE") && !Contains(upper, "RESERVE") && !Contains(upper, "BUY") && Contains(upper, "PASS"))
            && (r.None? <==>
                  !Contains(upper, "TAKE") && !Contains(upper, "RESERVE") && !Contains(upper, "BUY") && !Contains(upper, "PASS"))
  {
    var upper := Upper(text);
    TakeInTakeGems(upper);
    if Contains(upper, "TAKE_GEMS") || Contains(upper, "TAKE") then Some(KindOnly("TAKE_GEMS"))
    else if Contains(upper, "RESERVE") then Some(KindOnly("RESERVE"))
    else if Contains(upper, "BUY") then Some(KindOnly("BUY"))
    else if Contains(upper, "PASS") then Some(KindOnly("PASS"))
    else None
  }

  /** A text containing `TAKE_GEMS` contains `TAKE`, so the first of the
      keyword tests is covered by the second. */
  lemma TakeInTakeGems(s: string)
    ensures Contains(s, "TAKE_GEMS") ==> Contains(s, "TAKE")
  {
    if Contains(s, "TAKE_GEMS") {
      var i :| OccursAt(s, "TAKE_GEMS", i);
      assert s[i..i + 4] == s[i..i + 9][..4];
      assert OccursAt(s, "TAKE", i);
    }
  }

  /** The start of a `{"kind":"` reply whose kind begins as `k`'s name does. */
  function KindPrefix(k: ActionKind): string {
    "{\"kind\":\"" + KindName(k)[..2]
  }

  lemma KindPrefixes()
    ensures KindPrefix(TakeGemsAction) == "{\"kind\":\"TA" && KindPrefix(ReserveAction) == "{\"kind\":\"RE"
    ensures KindPrefix(BuyAction) == "{\"kind\":\"BU" && KindPrefix(PassAction) == "{\"kind\":\"PA"
  {
    assert KindName(TakeGemsAction)[..2] == "TA" && KindName(ReserveAction)[..2] == "RE";
    assert KindName(BuyAction)[..2] == "BU" && KindName(PassAction)[..2] == "PA";
  }

  /** No text starts with two of the four prefixes: their tenth letters differ. */
  lemma PrefixesExclusive(t: string)
    ensures forall k, k' :: StartsWith(t, KindPrefix(k)) && StartsWith(t, KindPrefix(k')) ==> k == k'
  {
    forall k, k' | StartsWith(t, KindPrefix(k)) && StartsWith(t, KindPrefix(k')) ensures k == k' {
      assert KindPrefix(k)[9] == KindName(k)[0] && KindPrefix(k')[9] == KindName(k')[0];
      assert t[9] == KindPrefix(k)[9] == KindPrefix(k')[9];
    }
  }

  /** `salvageByPrefix`: the kind the first letters of a `{"kind":"` reply
      announce. The four starts exclude each other, so the order of the
      tests does not matter. */
  function SalvageByPrefix(text: string): (r: Option<Parsed>)
    ensures forall k :: StartsWith(Trim(text), KindPrefix(k)) ==> r == Some(KindOnly(KindName(k)))
    ensures r.None? <==> forall k :: !StartsWith(Trim(text), KindPrefix(k))
  {
    var t := Trim(text);
    KindPrefixes();
    PrefixesExclusive(t);
    if StartsWith(t, "{\"kind\":\"TA") then Some(KindOnly("TAKE_GEMS"))
    else if StartsWith(t, "{\"kind\":\"RE") then Some(KindOnly("RESERVE"))
    else if StartsWith(t, "{\"kind\":\"BU") then Some(KindOnly("BUY"))
    else if StartsWith(t, "{\"kind\":\"PA") then Some(KindOnly("PASS"))
    else None
  }

  // -------------------------------------------------------- the chain

  /** The candidates of `parseGeminiJson` in the order it tries them: a
      direct parse; the brace block parsed and then loosened and parsed,
      when there is a block; the whole text loosened and parsed; the regex
      salvage; the keyword salvage; the prefix salvage. */
  function Stages(trimmed: string, parse: string -> Option<Parsed>, loosen: string -> string,
                  salvageByRegex: string -> Option<Parsed>): seq<Option<Parsed>>
  {
    [parse(trimmed)] + BlockStages(trimmed, parse, loosen) + LateStages(trimmed, parse, loosen, salvageByRegex)
  }

  function BlockStages(trimmed: string, parse: string -> Option<Parsed>, loosen: string -> string): seq<Option<Parsed>> {
    var block := ExtractBraceBlock(trimmed);
    if block.Some? then [parse(block.value), parse(loosen(block.value))] else []
  }

  function LateStages(trimmed: string, parse: string -> Option<Parsed>, loosen: string -> string,
                      salvageByRegex: string -> Option<Parsed>): seq<Option<Parsed>> {
    [parse(loosen(trimmed)), salvageByRegex(trimmed), SalvageByKeyword(trimmed), SalvageByPrefix(trimmed)]
  }

  /** The first candidate that is present. */
  function FirstPresent(candidates: seq<Option<Parsed>>): (r: Option<Parsed>)
    ensures r.None? <==> forall k :: 0 <= k < |candidates| ==> candidates[k].None?
    ensures r.Some? ==> exists k :: 0 <= k < |candidates| && candidates[k] == r
                          && forall j :: 0 <= j < k ==> candidates[j].None?
  {
    if |candidates| == 0 then None
    else if candidates[0].Some? then candidates[0]
    else
      var r := FirstPresent(candidates[1..]);
      assert forall k :: 1 <= k < |candidates| ==> candidates[k] == candidates[1..][k - 1];
      r
  }

  /** `parseGeminiJson(raw)`. `parse` stands for `JSON.parse` (`None` where
      it throws or yields a falsy value), `loosen` and `salvageByRegex` for
      the regex rewrites of those names. */
  function ParseReply(raw: string, parse: string -> Option<Parsed>, loosen: string -> string,
                      salvageByRegex: string -> Option<Parsed>): (r: Option<Parsed>)
  {
    var trimmed := StripFences(raw);
    if parse(trimmed).Some? then parse(trimmed)
    else
      var block := ExtractBraceBlock(trimmed);
      if block.Some? && parse(block.value).Some? then parse(block.value)
      else if block.Some? && parse(loosen(block.value)).Some? then parse(loosen(block.value))
      else if parse(loosen(trimmed)).Some? then parse(loosen(trimmed))
      else if salvageByRegex(trimmed).Some? then salvageByRegex(trimmed)
      else if SalvageByKeyword(trimmed).Some? then SalvageByKeyword(trimmed)
      else SalvageByPrefix(trimmed)
  }

  /** The chain answers with its first stage that succeeds. */
  lemma ParseReplyIsFirstStage(raw: string, parse: string -> Option<Parsed>, loosen: string -> string,
                               salvageByRegex: string -> Option<Parsed>)
    ensures ParseReply(raw, parse, loosen, salvageByRegex)
         == FirstPresent(Stages(StripFences(raw), parse, loosen, salvageByRegex))
  {
    var trimmed := StripFences(raw);
    var block := ExtractBraceBlock(trimmed);
    var a := parse(trimmed);
    var b0 := if block.Some? then parse(block.value) else None;
    var b1 := if block.Some? then parse(loosen(block.value)) else None;
    var l0, l1, l2, l3 := parse(loosen(trimmed)), salvageByRegex(trimmed), SalvageByKeyword(trimmed),
                          SalvageByPrefix(trimmed);
    var mid := BlockStages(trimmed, parse, loosen);
    assert mid == if block.Some? then [b0, b1] else [];
    assert Stages(trimmed, parse, loosen, salvageByRegex) == [a] + mid + [l0, l1, l2, l3];
    assert ParseReply(raw, parse, loosen, salvageByRegex)
        == if a.Some? then a else if b0.Some? then b0 else if b1.Some? then b1
           else if l0.Some? then l0 else if l1.Some? then l1 else if l2.Some? then l2 else l3;
    FirstPresentChain(a, mid, l0, l1, l2, l3);
  }

  /** The first present of the candidates, spelled out case by case. */
  lemma FirstPresentChain(a: Option<Parsed>, mid: seq<Option<Parsed>>, l0: Option<Parsed>, l1: Option<Parsed>,
                          l2: Option<Parsed>, l3: Option<Parsed>)
    requires |mid| == 0 || (|mid| == 2)
    ensures var b0 := if |mid| == 2 then mid[0] else None;
            var b1 := if |mid| == 2 then mid[1] else None;
            FirstPresent([a] + mid + [l0, l1, l2, l3])
            == if a.Some? then a else if b0.Some? then b0 else if b1.Some? then b1
               else if l0.Some? then l0 else if l1.Some? then l1 else if l2.Some? then l2 else l3
  {
    FirstPresentConcat([a] + mid, [l0, l1, l2, l3]);
    FirstPresentConcat([a], mid);
    FirstPresentFour(l0, l1, l2, l3);
    assert [a][1..] == [];
    if |mid| == 2 {
      FirstPresentTwo(mid[0], mid[1]);
      assert mid == [mid[0], mid[1]];
    }
  }

  lemma {:induction false} FirstPresentConcat(a: seq<Option<Parsed>>, b: seq<Option<Parsed>>)
    ensures FirstPresent(a + b) == if FirstPresent(a).Some? then FirstPresent(a) else FirstPresent(b)
  {
    if |a| > 0 {
      assert (a + b)[1..] == a[1..] + b;
      FirstPresentConcat(a[1..], b);
    } else {
      assert a + b == b;
    }
  }

  lemma FirstPresentTwo(x: Option<Parsed>, y: Option<Parsed>)
    ensures FirstPresent([x, y]) == if x.Some? then x else y
  {
    assert [x, y][1..] == [y];
    assert [y][1..] == [];
  }

  lemma FirstPresentFour(w: Option<Parsed>, x: Option<Parsed>, y: Option<Parsed>, z: Option<Parsed>)
    ensures FirstPresent([w, x, y, z]) == if w.Some? then w else if x.Some? then x else if y.Some? then y else z
  {
    assert [w, x, y, z][1..] == [x, y, z];
    assert [x, y, z][1..] == [y, z];
    FirstPresentTwo(y, z);
  }

  // ------------------------------------------------------ the decision

  function KindName(k: ActionKind): string {
    match k
    case BuyAction => "BUY"
    case ReserveAction => "RESERVE"
    case TakeGemsAction => "TAKE_GEMS"
    case PassAction => "PASS"
  }

  /** `normalizeActionKind`: the action whose name the upper-cased kind is;
      `None` for a missing or empty kind and for any other word. */
  function NormalizeActionKind(kind: Option<string>): (r: Option<ActionKind>)
    ensures r.Some? <==> Truthy(kind) && exists k :: Upper(kind.value) == KindName(k)
    ensures r.Some? ==> Upper(kind.value) == KindName(r.value)
  {
    if !Truthy(kind) then None
    else
      var upper := Upper(kind.value);
      if upper == "BUY" then assert upper == KindName(BuyAction); Some(BuyAction)
      else if upper == "RESERVE" then assert upper == KindName(ReserveAction); Some(ReserveAction)
      else if upper == "TAKE_GEMS" then assert upper == KindName(TakeGemsAction); Some(TakeGemsAction)
      else if upper == "PASS" then assert upper == KindName(PassAction); Some(PassAction)
      else None
  }

  /** Every action name is recognised in upper and in lower case. */
  lemma NormalizeKindName(k: ActionKind)
    ensures NormalizeActionKind(Some(KindName(k))) == Some(k)
    ensures NormalizeActionKind(Some(Lower(KindName(k)))) == Some(k)
  {
    var name := KindName(k);
    assert Upper(name) == name;
    assert Upper(Lower(name)) == name;
  }

  /** The colours a reply's gem list names, when every entry names one. */
  function GemsOf(names: seq<string>): (r: Option<seq<Gem>>)
    ensures r.Some? ==> |r.value| == |names| && forall k :: 0 <= k < |names| ==> Name(r.value[k]) == names[k]
    ensures r.None? ==> exists k :: 0 <= k < |names| && FromName(names[k]).None?
  {
    if |names| == 0 then Some([])
    else
      match (FromName(names[0]), GemsOf(names[1..]))
      case (Some(c), Some(rest)) =>
        assert forall k :: 1 <= k < |names| ==> names[k] == names[1..][k - 1];
        Some([c] + rest)
      case (None, _) => None
      case (_, None) =>
        var k :| 0 <= k < |names[1..]| && FromName(names[1..][k]).None?;
        assert names[k + 1] == names[1..][k];
        None
  }

  /** The decision `requestGeminiMove` builds from a parsed reply for the
      gemini or gemma player `llm`: none without a recognised kind. */
  function BuildDecision(parsed: Parsed, llm: Strategy): (r: Option<Decision>)
    requires llm == Gemini || llm == Gemma
    ensures r.Some? <==> NormalizeActionKind(parsed.kind).Some?
    ensures r.Some? ==> r.value.kind == NormalizeActionKind(parsed.kind).value
                        && r.value.cardId == parsed.cardId && r.value.fromReserve == parsed.fromReserve
                        && r.value.reserveFromDeckLevel == parsed.reserveFromDeckLevel
                        && r.value.gems == (if parsed.gems.Some? then GemsOf(parsed.gems.value) else None)
                        && r.value.reasoning == parsed.reasoning
                        && r.value.strategyUsed == Some(llm)
                        && r.value.source == (if llm == Gemini then FromGemini else FromGemma)
  {
    match NormalizeActionKind(parsed.kind)
    case None => None
    case Some(kind) =>
      var gems := if parsed.gems.Some? then GemsOf(parsed.gems.value) else None;
      Some(Decision(kind, gems, parsed.cardId, parsed.fromReserve, parsed.reserveFromDeckLevel,
                    parsed.reasoning, Some(llm), if llm == Gemini then FromGemini else FromGemma))
  }

  /** The remote answer `chooseAIMove` receives for reply text `raw`. */
  function RemoteDecision(raw: string, llm: Strategy, parse: string -> Option<Parsed>, loosen: string -> string,
                          salvageByRegex: string -> Option<Parsed>): (r: Option<Decision>)
    requires llm == Gemini || llm == Gemma
    ensures r.Some? ==> ParseReply(raw, parse, loosen, salvageByRegex).Some?
    ensures ParseReply(raw, parse, loosen, salvageByRegex).Some? ==>
              r == BuildDecision(ParseReply(raw, parse, loosen, salvageByRegex).value, llm)
    ensures r.Some? <==> ParseReply(raw, parse, loosen, salvageByRegex).Some? &&
                         NormalizeActionKind(ParseReply(raw, parse, loosen, salvageByRegex).value.kind).Some?
  {
    var parsed := ParseReply(raw, parse, loosen, salvageByRegex);
    if parsed.None? then None else BuildDecision(parsed.value, llm)
  }

  /** A reply whose parse fails everywhere but which mentions an action word
      still yields that action, TAKE winning over all others. */
  lemma KeywordRescue(raw: string, loosen: string -> string, salvageByRegex: string -> Option<Parsed>)
    requires forall t :: salvageByRegex(t).None?
    requires Contains(Upper(StripFences(raw)), "TAKE")
    ensures ParseReply(raw, _ => None, loosen, salvageByRegex) == Some(KindOnly("TAKE_GEMS"))
    ensures RemoteDecision(raw, Gemini, _ => None, loosen, salvageByRegex).Some?
    ensures RemoteDecision(raw, Gemini, _ => None, loosen, salvageByRegex).value.kind == TakeGemsAction
  {
    NormalizeKindName(TakeGemsAction);
  }
}
