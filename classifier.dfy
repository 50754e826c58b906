/**
 * The rule-based classification engine: category detection, additive urgency
 * scoring, the score-to-priority bands, the human-readable reason and the
 * batch classify-and-sort entry point.
 */
module Classifier {
  import opened Wrappers
  import opened Text
  import opened EmailTypes
  import opened Keywords

  // ---------------------------------------------------------------------------
  // Rule conditions
  // ---------------------------------------------------------------------------

  /** A compiled regular expression: its `test` on a subject string. */
  type RegexTest = string -> bool

  /**
   * The JavaScript regular-expression engine, supplied by the caller:
   * `regex(pattern, ignoreCase)` compiles `pattern` (with the `i` flag when
   * `ignoreCase`), giving `None` when the pattern is malformed and otherwise
   * the compiled expression's `test`.
   */
  type RegexEngine = (string, bool) -> Option<RegexTest>

  /** Whether one rule condition holds for the value of its field. */
  function MatchCondition(value: string, condition: RuleCondition, regex: RegexEngine): bool {
    var targetValue := if condition.caseSensitive then value else Lower(value);
    var matchValue := if condition.caseSensitive then condition.value else Lower(condition.value);
    match condition.matchType
    case Contains => Includes(targetValue, matchValue)
    case StartsWith => HasPrefix(targetValue, matchValue)
    case EndsWith => HasSuffix(targetValue, matchValue)
    case Exact => targetValue == matchValue
    case Regex =>
      (match regex(condition.value, !condition.caseSensitive)
       case None => false
       case Some(test) => test(value))
    case Unrecognized(_) => false
  }

  /**
   * A case-insensitive literal condition sees only the lower-case forms: it
   * gives the same answer on the lower-cased value and with a lower-cased
   * pattern.
   */
  lemma MatchConditionFoldsCase(value: string, condition: RuleCondition, regex: RegexEngine)
    requires !condition.caseSensitive && !condition.matchType.Regex?
    ensures MatchCondition(value, condition, regex) == MatchCondition(Lower(value), condition, regex)
    ensures MatchCondition(value, condition, regex)
            == MatchCondition(value, condition.(value := Lower(condition.value)), regex)
  {
    LowerIdempotent(value);
    LowerIdempotent(condition.value);
  }

  /**
   * A regex condition is the engine's verdict on the original (not
   * lower-cased) value; a pattern that fails to compile gives false.
   */
  lemma RegexConditionUsesEngine(value: string, condition: RuleCondition, regex: RegexEngine)
    requires condition.matchType.Regex?
    ensures MatchCondition(value, condition, regex)
            <==> (regex(condition.value, !condition.caseSensitive).Some?
                 && regex(condition.value, !condition.caseSensitive).value(value))
    ensures regex(condition.value, !condition.caseSensitive).None?
            ==> !MatchCondition(value, condition, regex)
  {
  }

  lemma UnrecognizedMatchTypeNeverMatches(value: string, condition: RuleCondition, regex: RegexEngine)
    requires condition.matchType.Unrecognized?
    ensures !MatchCondition(value, condition, regex)
  {
  }

  /**
   * The literal match types are ordered by strength: an exact match is also a
   * prefix, suffix and substring match, and a prefix or suffix match is a
   * substring match.
   */
  lemma MatchTypeStrength(value: string, condition: RuleCondition, regex: RegexEngine)
    ensures MatchCondition(value, condition.(matchType := Exact), regex) ==>
              && MatchCondition(value, condition.(matchType := StartsWith), regex)
              && MatchCondition(value, condition.(matchType := EndsWith), regex)
    ensures MatchCondition(value, condition.(matchType := StartsWith), regex) ==>
              MatchCondition(value, condition.(matchType := Contains), regex)
    ensures MatchCondition(value, condition.(matchType := EndsWith), regex) ==>
              MatchCondition(value, condition.(matchType := Contains), regex)
  {
    var t := if condition.caseSensitive then value else Lower(value);
    var p := if condition.caseSensitive then condition.value else Lower(condition.value);
    assert MatchCondition(value, condition.(matchType := Exact), regex) == (t == p);
    assert MatchCondition(value, condition.(matchType := StartsWith), regex) == HasPrefix(t, p);
    assert MatchCondition(value, condition.(matchType := EndsWith), regex) == HasSuffix(t, p);
    assert MatchCondition(value, condition.(matchType := Contains), regex) == Includes(t, p);
    LiteralMatchStrength(t, p);
  }

  lemma LiteralMatchStrength(t: string, p: string)
    ensures t == p ==> HasPrefix(t, p) && HasSuffix(t, p)
    ensures HasPrefix(t, p) ==> Includes(t, p)
    ensures HasSuffix(t, p) ==> Includes(t, p)
  {
    if HasPrefix(t, p) {
      PrefixIsIncluded(t, p);
    }
    if HasSuffix(t, p) {
      SuffixIsIncluded(t, p);
    }
  }

  // ---------------------------------------------------------------------------
  // Keyword tests
  // ---------------------------------------------------------------------------

  /** One keyword occurs in the text, both lower-cased. */
  predicate KeywordMatches(text: string, keyword: string) {
    Includes(Lower(text), Lower(keyword))
  }

  /** `keywords.some(...)`: some keyword of the list occurs in the text. */
  predicate ContainsKeywords(text: string, keywords: seq<string>) {
    exists i | 0 <= i < |keywords| :: KeywordMatches(text, keywords[i])
  }

  /** `keywords.filter(...).length`: how many list entries occur in the text. */
  function CountKeywordMatches(text: string, keywords: seq<string>): (n: nat)
    ensures n <= |keywords|
  {
    if |keywords| == 0 then 0
    else
      CountKeywordMatches(text, keywords[..|keywords| - 1])
      + (if KeywordMatches(text, keywords[|keywords| - 1]) then 1 else 0)
  }

  /** The positions of the list entries that occur in the text. */
  function MatchingPositions(text: string, keywords: seq<string>): set<nat> {
    set i: nat | i < |keywords| && KeywordMatches(text, keywords[i])
  }

  /** The count is the number of matching list positions: every entry counts on its own. */
  lemma {:induction false} CountIsMatchingPositions(text: string, keywords: seq<string>)
    ensures CountKeywordMatches(text, keywords) == |MatchingPositions(text, keywords)|
  {
    if |keywords| == 0 {
      assert MatchingPositions(text, keywords) == {};
    } else {
      var n := |keywords| - 1;
      var init := keywords[..n];
      CountIsMatchingPositions(text, init);
      MatchingPositionsOfLast(text, keywords);
      assert n !in MatchingPositions(text, init);
    }
  }

  /** Appending an entry adds its position exactly when it matches. */
  lemma MatchingPositionsOfLast(text: string, keywords: seq<string>)
    requires |keywords| > 0
    ensures var n := |keywords| - 1;
      MatchingPositions(text, keywords)
      == MatchingPositions(text, keywords[..n]) + (if KeywordMatches(text, keywords[n]) then {n} else {})
  {
    var n := |keywords| - 1;
    assert forall i | 0 <= i < n :: keywords[..n][i] == keywords[i];
  }

  /** The count is positive exactly when `ContainsKeywords` holds. */
  lemma {:induction false} CountPositiveIffContains(text: string, keywords: seq<string>)
    ensures CountKeywordMatches(text, keywords) > 0 <==> ContainsKeywords(text, keywords)
  {
    if |keywords| > 0 {
      var n := |keywords| - 1;
      var init := keywords[..n];
      CountPositiveIffContains(text, init);
      if ContainsKeywords(text, init) {
        var i :| 0 <= i < |init| && KeywordMatches(text, init[i]);
        assert keywords[i] == init[i];
      }
      if ContainsKeywords(text, keywords) && !KeywordMatches(text, keywords[n]) {
        var i :| 0 <= i < |keywords| && KeywordMatches(text, keywords[i]);
        assert init[i] == keywords[i];
      }
    }
  }

  lemma SubsetCardinality(a: set<nat>, b: set<nat>)
    requires a <= b
    ensures |a| <= |b|
  {
    assert b == a + (b - a);
  }

  /**
   * Two list entries that agree after lower-casing both count: a text holding
   * one of them scores twice.
   */
  lemma CaseVariantsCountTwice(text: string, keywords: seq<string>, i: nat, j: nat)
    requires i < j < |keywords|
    requires Lower(keywords[i]) == Lower(keywords[j])
    requires KeywordMatches(text, keywords[i])
    ensures CountKeywordMatches(text, keywords) >= 2
  {
    CountIsMatchingPositions(text, keywords);
    SubsetCardinality({i, j}, MatchingPositions(text, keywords));
  }

  /** A text holding "urgent" in any case counts both 'URGENT' and 'urgent'. */
  lemma UrgentCountsBothSpellings(text: string)
    requires Includes(Lower(text), "urgent")
    ensures CountKeywordMatches(text, UrgentKeywords) >= 2
  {
    assert UrgentKeywords[3] == "URGENT" && UrgentKeywords[4] == "urgent";
    assert Lower("urgent") == "urgent";
    assert Lower("URGENT") == "urgent";
    CaseVariantsCountTwice(text, UrgentKeywords, 3, 4);
  }

  /**
   * The sender looks like an automated or bulk address: some pattern occurs in
   * it, ignoring case. The patterns are lower case, so lower-casing the sender
   * is the whole of the `i` flag.
   */
  predicate IsLowPrioritySender(sender: string) {
    exists k | 0 <= k < |LowPrioritySenderPatterns| :: Includes(Lower(sender), LowPrioritySenderPatterns[k])
  }

  /** The `i` flag: whether a sender is automated does not depend on its case. */
  lemma LowSenderIgnoresCase(sender: string)
    ensures IsLowPrioritySender(sender) <==> IsLowPrioritySender(Lower(sender))
  {
    LowerIdempotent(sender);
  }

  /** A mixed-case no-reply address is recognised as automated. */
  lemma MixedCaseNoReplyIsAutomated()
    ensures IsLowPrioritySender("NoReply@shop.example.com")
  {
    var s := "NoReply@shop.example.com";
    assert LowPrioritySenderPatterns[0] == "noreply@";
    IncludesAt(Lower(s), "noreply@", 0);
  }

  // ---------------------------------------------------------------------------
  // Category detection
  // ---------------------------------------------------------------------------

  /** The subject and the snippet joined by one space. */
  function CombinedText(email: RawEmailData): string {
    email.subject + " " + email.snippet
  }

  // The six detection tests, in the order they are tried.

  predicate LooksUrgent(email: RawEmailData) {
    ContainsKeywords(CombinedText(email), UrgentKeywords)
  }

  predicate LooksLikeMeeting(email: RawEmailData) {
    ContainsKeywords(CombinedText(email), MeetingKeywords)
  }

  predicate NeedsAction(email: RawEmailData) {
    ContainsKeywords(CombinedText(email), ActionKeywords)
  }

  /** Social keywords are looked for in the sender and the subject, not the snippet. */
  predicate LooksSocial(email: RawEmailData) {
    ContainsKeywords(email.sender, SocialKeywords) || ContainsKeywords(email.subject, SocialKeywords)
  }

  predicate LooksPromotional(email: RawEmailData) {
    ContainsKeywords(CombinedText(email), PromotionKeywords)
  }

  predicate LooksLikeNewsletter(email: RawEmailData) {
    ContainsKeywords(CombinedText(email), NewsletterKeywords) || IsLowPrioritySender(email.sender)
  }

  /** The category of an email: the first keyword test that fires, in a fixed order. */
  function Categorize(email: RawEmailData): (c: EmailCategory)
    ensures c != Important && c != Fyi
  {
    if LooksUrgent(email) then Urgent
    else if LooksLikeMeeting(email) then Meeting
    else if NeedsAction(email) then Action
    else if LooksSocial(email) then Social
    else if LooksPromotional(email) then Promotion
    else if LooksLikeNewsletter(email) then Newsletter
    else Other
  }

  /** The detection table: each category with whether its test fires, in priority order. */
  function CategoryTests(email: RawEmailData): seq<(EmailCategory, bool)> {
    [ (Urgent, LooksUrgent(email)),
      (Meeting, LooksLikeMeeting(email)),
      (Action, NeedsAction(email)),
      (Social, LooksSocial(email)),
      (Promotion, LooksPromotional(email)),
      (Newsletter, LooksLikeNewsletter(email)) ]
  }

  /** First-match-wins over a table of tests, with `Other` when none fires. */
  function FirstMatch(tests: seq<(EmailCategory, bool)>): (c: EmailCategory)
    ensures (forall k | 0 <= k < |tests| :: !tests[k].1) ==> c == Other
    ensures forall k | 0 <= k < |tests| ::
              tests[k].1 && (forall j | 0 <= j < k :: !tests[j].1) ==> c == tests[k].0
  {
    if |tests| == 0 then Other
    else if tests[0].1 then tests[0].0
    else
      var c := FirstMatch(tests[1..]);
      assert forall k | 1 <= k < |tests| :: tests[k] == tests[1..][k - 1];
      assert forall k | 0 <= k < |tests| && tests[k].1 && (forall j | 0 <= j < k :: !tests[j].1) ::
          c == tests[k].0 by {
        forall k | 0 <= k < |tests| && tests[k].1 && (forall j | 0 <= j < k :: !tests[j].1)
          ensures c == tests[k].0
        {
          assert k != 0;
          assert forall j | 0 <= j < k - 1 :: !tests[1..][j].1 by {
            assert forall j | 0 <= j < k - 1 :: tests[1..][j] == tests[j + 1];
          }
        }
      }
      c
  }

  /** Category detection is first-match-wins over the detection table. */
  lemma CategorizeIsFirstMatch(email: RawEmailData)
    ensures Categorize(email) == FirstMatch(CategoryTests(email))
  {
    var t := CategoryTests(email);
    FirstMatchOfSix(t[0].1, t[1].1, t[2].1, t[3].1, t[4].1, t[5].1);
  }

  /** First-match-wins over the six detection tests is the chain of `if`s. */
  lemma FirstMatchOfSix(u: bool, m: bool, a: bool, s: bool, p: bool, n: bool)
    ensures FirstMatch([(Urgent, u), (Meeting, m), (Action, a), (Social, s), (Promotion, p), (Newsletter, n)])
            == if u then Urgent else if m then Meeting else if a then Action
               else if s then Social else if p then Promotion else if n then Newsletter else Other
  {
    var t := [(Urgent, u), (Meeting, m), (Action, a), (Social, s), (Promotion, p), (Newsletter, n)];
    var c := FirstMatch(t);
    if u {
      assert c == t[0].0;
    } else if m {
      assert c == t[1].0;
    } else if a {
      assert c == t[2].0;
    } else if s {
      assert c == t[3].0;
    } else if p {
      assert c == t[4].0;
    } else if n {
      assert c == t[5].0;
    } else {
      assert forall k | 0 <= k < |t| :: !t[k].1;
    }
  }

  // ---------------------------------------------------------------------------
  // Urgency score
  // ---------------------------------------------------------------------------

  /** The base adjustment of each category. */
  function CategoryScore(category: EmailCategory): int {
    match category
    case Urgent => 30
    case Important => 20
    case Meeting => 15
    case Action => 15
    case Fyi => 0
    case Newsletter => -20
    case Promotion => -25
    case Social => -15
    case Other => 0
  }

  /** `rule.conditions.every(...)`: every condition holds for its field. */
  predicate RuleMatches(email: RawEmailData, rule: ClassificationRule, regex: RegexEngine) {
    forall i | 0 <= i < |rule.conditions| ::
      MatchCondition(FieldValue(email, rule.conditions[i].field), rule.conditions[i], regex)
  }

  /** What one custom rule adds to the score. */
  function RuleBoost(email: RawEmailData, rule: ClassificationRule, regex: RegexEngine): int {
    if rule.enabled && RuleMatches(email, rule, regex) then rule.scoreBoost else 0
  }

  /** What a sequence of custom rules adds, each rule on its own. */
  function CustomRulesBoost(email: RawEmailData, rules: seq<ClassificationRule>, regex: RegexEngine): int {
    if |rules| == 0 then 0
    else CustomRulesBoost(email, rules[..|rules| - 1], regex) + RuleBoost(email, rules[|rules| - 1], regex)
  }

  /** Rule contributions add up over concatenation: no rule shadows another. */
  lemma {:induction false} CustomRulesBoostAppend(
    email: RawEmailData, a: seq<ClassificationRule>, b: seq<ClassificationRule>, regex: RegexEngine)
    ensures CustomRulesBoost(email, a + b, regex)
            == CustomRulesBoost(email, a, regex) + CustomRulesBoost(email, b, regex)
  {
    if |b| == 0 {
      assert a + b == a;
    } else {
      var n := |b| - 1;
      CustomRulesBoostAppend(email, a, b[..n], regex);
      assert (a + b)[..|a + b| - 1] == a + b[..n];
      assert (a + b)[|a + b| - 1] == b[n];
    }
  }

  /** A single rule adds its boost when enabled and matching, and nothing otherwise. */
  lemma SingleRuleBoost(email: RawEmailData, rule: ClassificationRule, regex: RegexEngine)
    ensures CustomRulesBoost(email, [rule], regex)
            == if rule.enabled && RuleMatches(email, rule, regex) then rule.scoreBoost else 0
  {
    assert [rule][..0] == [];
  }

  /** A disabled rule contributes nothing wherever it stands. */
  lemma DisabledRuleContributesNothing(
    email: RawEmailData, before: seq<ClassificationRule>, rule: ClassificationRule,
    after: seq<ClassificationRule>, regex: RegexEngine)
    requires !rule.enabled
    ensures CustomRulesBoost(email, before + [rule] + after, regex)
            == CustomRulesBoost(email, before + after, regex)
  {
    CustomRulesBoostAppend(email, before + [rule], after, regex);
    CustomRulesBoostAppend(email, before, [rule], regex);
    CustomRulesBoostAppend(email, before, after, regex);
    SingleRuleBoost(email, rule, regex);
  }

  /** A rule without conditions matches every email. */
  lemma EmptyRuleAlwaysMatches(email: RawEmailData, rule: ClassificationRule, regex: RegexEngine)
    requires rule.conditions == []
    ensures RuleMatches(email, rule, regex)
    ensures RuleBoost(email, rule, regex) == if rule.enabled then rule.scoreBoost else 0
  {
  }

  /** A rule with a condition whose regex does not compile never fires. */
  lemma BadRegexRuleContributesNothing(
    email: RawEmailData, rule: ClassificationRule, k: nat, regex: RegexEngine)
    requires k < |rule.conditions| && rule.conditions[k].matchType.Regex?
    requires regex(rule.conditions[k].value, !rule.conditions[k].caseSensitive).None?
    ensures RuleBoost(email, rule, regex) == 0
  {
    assert !MatchCondition(FieldValue(email, rule.conditions[k].field), rule.conditions[k], regex);
  }

  predicate IsVip(sender: string, settings: ExtensionSettings) {
    ContainsKeywords(sender, settings.vipList)
  }

  predicate IsIgnored(sender: string, settings: ExtensionSettings) {
    ContainsKeywords(sender, settings.ignoreList)
  }

  /** The base score with the category adjustment and the keyword counts. */
  function ContentScore(email: RawEmailData, category: EmailCategory): int {
    var combinedText := CombinedText(email);
    50
    + CategoryScore(category)
    + CountKeywordMatches(combinedText, UrgentKeywords) * 10
    + CountKeywordMatches(combinedText, ActionKeywords) * 5
  }

  /** The bonuses for the unread, starred and attachment flags. */
  function FlagScore(email: RawEmailData): int {
    (if email.isUnread then 10 else 0)
    + (if email.isStarred then 15 else 0)
    + (if email.hasAttachment then 5 else 0)
  }

  /** The VIP bonus, the ignore-list penalty and the automated-sender penalty. */
  function SenderScore(sender: string, settings: ExtensionSettings): int {
    (if IsVip(sender, settings) then 30 else 0)
    - (if IsIgnored(sender, settings) then 40 else 0)
    - (if IsLowPrioritySender(sender) then 20 else 0)
  }

  /** The additive score before clamping. */
  function RawUrgencyScore(
    email: RawEmailData, category: EmailCategory, settings: ExtensionSettings, regex: RegexEngine): int
  {
    ContentScore(email, category) + FlagScore(email) + SenderScore(email.sender, settings)
    + CustomRulesBoost(email, settings.customRules, regex)
  }

  /** `Math.max(0, Math.min(100, raw))` */
  function Clamp(raw: int): (r: int)
    ensures 0 <= r <= 100
    ensures raw > 100 ==> r == 100
    ensures raw < 0 ==> r == 0
    ensures 0 <= raw <= 100 ==> r == raw
  {
    var capped := if raw < 100 then raw else 100;
    if capped > 0 then capped else 0
  }

  /** The urgency score of an email: the raw score clamped to 0..100. */
  function UrgencyScore(
    email: RawEmailData, category: EmailCategory, settings: ExtensionSettings, regex: RegexEngine): (s: int)
    ensures 0 <= s <= 100
  {
    Clamp(RawUrgencyScore(email, category, settings, regex))
  }

  /** Each custom rule appended to the settings shifts the raw score by exactly its own contribution. */
  lemma AppendedRuleShiftsRawScore(
    email: RawEmailData, category: EmailCategory, settings: ExtensionSettings,
    rule: ClassificationRule, regex: RegexEngine)
    ensures RawUrgencyScore(email, category, settings.(customRules := settings.customRules + [rule]), regex)
            == RawUrgencyScore(email, category, settings, regex) + RuleBoost(email, rule, regex)
  {
    CustomRulesBoostAppend(email, settings.customRules, [rule], regex);
    SingleRuleBoost(email, rule, regex);
  }

  /** Two enabled matching rules both apply: their boosts add up. */
  lemma TwoMatchingRulesAccumulate(
    email: RawEmailData, category: EmailCategory, settings: ExtensionSettings,
    r1: ClassificationRule, r2: ClassificationRule, regex: RegexEngine)
    requires settings.customRules == []
    requires r1.enabled && RuleMatches(email, r1, regex)
    requires r2.enabled && RuleMatches(email, r2, regex)
    ensures RawUrgencyScore(email, category, settings.(customRules := [r1, r2]), regex)
            == RawUrgencyScore(email, category, settings, regex) + r1.scoreBoost + r2.scoreBoost
  {
    var s1 := settings.(customRules := [r1]);
    AppendedRuleShiftsRawScore(email, category, settings, r1, regex);
    assert settings.customRules + [r1] == [r1];
    AppendedRuleShiftsRawScore(email, category, s1, r2, regex);
    assert s1.customRules + [r2] == [r1, r2];
  }

  /**
   * The VIP bonus and the ignore penalty are added on top of everything else:
   * they never cancel another contribution.
   */
  lemma SenderListsAreAdditive(
    email: RawEmailData, category: EmailCategory, settings: ExtensionSettings, regex: RegexEngine)
    ensures RawUrgencyScore(email, category, settings, regex)
            == RawUrgencyScore(email, category, settings.(vipList := [], ignoreList := []), regex)
               + (if IsVip(email.sender, settings) then 30 else 0)
               - (if IsIgnored(email.sender, settings) then 40 else 0)
  {
  }

  /** An empty VIP entry matches every sender. */
  lemma EmptyVipEntryMatchesEverySender(sender: string, settings: ExtensionSettings)
    requires "" in settings.vipList
    ensures IsVip(sender, settings)
  {
    var i :| 0 <= i < |settings.vipList| && settings.vipList[i] == "";
    IncludesEmpty(Lower(sender));
    assert KeywordMatches(sender, settings.vipList[i]);
  }

  /** The imperative score computation: starts at 50 and adds each contribution in turn. */
  method CalculateUrgencyScore(
    email: RawEmailData, category: EmailCategory, settings: ExtensionSettings, regex: RegexEngine)
    returns (score: int)
    ensures score == UrgencyScore(email, category, settings, regex)
    ensures 0 <= score <= 100
  {
    score := 50;
    var combinedText := CombinedText(email);
    score := score + CategoryScore(category);
    score := score + CountKeywordMatches(combinedText, UrgentKeywords) * 10;
    score := score + CountKeywordMatches(combinedText, ActionKeywords) * 5;
    assert score == ContentScore(email, category);
    if email.isUnread {
      score := score + 10;
    }
    if email.isStarred {
      score := score + 15;
    }
    if email.hasAttachment {
      score := score + 5;
    }
    assert score == ContentScore(email, category) + FlagScore(email);
    if IsVip(email.sender, settings) {
      score := score + 30;
    }
    if IsIgnored(email.sender, settings) {
      score := score - 40;
    }
    if IsLowPrioritySender(email.sender) {
      score := score - 20;
    }
    ghost var beforeRules := score;
    assert beforeRules == ContentScore(email, category) + FlagScore(email) + SenderScore(email.sender, settings);
    var rules := settings.customRules;
    for i := 0 to |rules|
      invariant score == beforeRules + CustomRulesBoost(email, rules[..i], regex)
    {
      assert rules[..i + 1][..i] == rules[..i];
      var rule := rules[i];
      if !rule.enabled {
        continue;
      }
      var allConditionsMet := RuleMatches(email, rule, regex);
      if allConditionsMet {
        score := score + rule.scoreBoost;
      }
    }
    assert rules[..|rules|] == rules;
    score := Clamp(score);
  }

  // ---------------------------------------------------------------------------
  // Priority
  // ---------------------------------------------------------------------------

  /** The four priority bands, each closed below. */
  function ScoreToPriority(score: int): (p: PriorityLevel)
    ensures p == Critical <==> score >= 80
    ensures p == High <==> 60 <= score < 80
    ensures p == Medium <==> 40 <= score < 60
    ensures p == Low <==> score < 40
  {
    if score >= 80 then Critical
    else if score >= 60 then High
    else if score >= 40 then Medium
    else Low
  }

  function PriorityRank(p: PriorityLevel): nat {
    match p
    case Low => 0
    case Medium => 1
    case High => 2
    case Critical => 3
  }

  /** A higher score never gives a lower priority. */
  lemma ScoreToPriorityMonotone(s1: int, s2: int)
    requires s1 <= s2
    ensures PriorityRank(ScoreToPriority(s1)) <= PriorityRank(ScoreToPriority(s2))
  {
  }

  /** The neighbouring scores at each band edge fall into different bands. */
  lemma ScoreToPriorityEdges()
    ensures ScoreToPriority(39) == Low && ScoreToPriority(40) == Medium
    ensures ScoreToPriority(59) == Medium && ScoreToPriority(60) == High
    ensures ScoreToPriority(79) == High && ScoreToPriority(80) == Critical
  {
  }

  // ---------------------------------------------------------------------------
  // Reason
  // ---------------------------------------------------------------------------

  /** `vipList.find(...)`: the first VIP entry that occurs in the sender. */
  function FindVip(sender: string, vipList: seq<string>): (r: Option<string>)
    ensures r.None? <==> !ContainsKeywords(sender, vipList)
    ensures r.Some? ==> |vipList| > 0 && KeywordMatches(sender, r.value)
    ensures r.Some? ==> (KeywordMatches(sender, vipList[0]) ==> r.value == vipList[0])
    ensures r.Some? ==> r.value in vipList
  {
    if |vipList| == 0 then None
    else if KeywordMatches(sender, vipList[0]) then Some(vipList[0])
    else
      var r := FindVip(sender, vipList[1..]);
      assert forall i | 1 <= i < |vipList| :: vipList[i] == vipList[1..][i - 1];
      r
  }

  /** `FindVip` returns the earliest matching entry: every entry before it fails to match. */
  lemma {:induction false} FindVipIsFirst(sender: string, vipList: seq<string>)
    ensures FindVip(sender, vipList).Some? ==>
              exists i | 0 <= i < |vipList| ::
                vipList[i] == FindVip(sender, vipList).value
                && forall j | 0 <= j < i :: !KeywordMatches(sender, vipList[j])
  {
    if |vipList| > 0 && !KeywordMatches(sender, vipList[0]) {
      var tail := vipList[1..];
      FindVipIsFirst(sender, tail);
      if FindVip(sender, tail).Some? {
        var i :| 0 <= i < |tail| && tail[i] == FindVip(sender, tail).value
                 && forall j | 0 <= j < i :: !KeywordMatches(sender, tail[j]);
        assert vipList[i + 1] == tail[i];
        forall j | 0 <= j < i + 1
          ensures !KeywordMatches(sender, vipList[j])
        {
          if j > 0 {
            assert vipList[j] == tail[j - 1];
          }
        }
      }
    } else if |vipList| > 0 {
      assert vipList[0] == FindVip(sender, vipList).value;
    }
  }

  const StandardReason: string := "標準分類"
  const UrgentClause: string := "緊急キーワードを検出"
  const MeetingClause: string := "会議・予定に関連"
  const ActionClause: string := "対応が必要な内容"
  const UnreadClause: string := "未読"
  const StarredClause: string := "スター付き"
  const AttachmentClause: string := "添付ファイルあり"
  const ReasonSeparator: string := " / "

  function VipClause(vip: string): string {
    "VIP送信者: " + vip
  }

  /**
   * The clauses that fire, in order. A matched VIP entry that is the empty
   * string is falsy in JavaScript and gives no clause.
   */
  function ReasonClauses(email: RawEmailData, category: EmailCategory, settings: ExtensionSettings): seq<string> {
    var withUrgent := PushIf(VipClauses(email, settings), UrgentFires(email, category), UrgentClause);
    var withMeeting := PushIf(withUrgent, category == Meeting, MeetingClause);
    var withAction := PushIf(withMeeting, category == Action, ActionClause);
    var withUnread := PushIf(withAction, email.isUnread, UnreadClause);
    var withStarred := PushIf(withUnread, email.isStarred, StarredClause);
    PushIf(withStarred, email.hasAttachment, AttachmentClause)
  }

  /** `if (fires) reasons.push(clause)` */
  function PushIf(reasons: seq<string>, fires: bool, clause: string): seq<string> {
    if fires then reasons + [clause] else reasons
  }

  /** The VIP clause, naming the first matching entry when it is not empty. */
  function VipClauses(email: RawEmailData, settings: ExtensionSettings): seq<string> {
    var matchedVip := FindVip(email.sender, settings.vipList);
    if matchedVip.Some? && matchedVip.value != "" then [VipClause(matchedVip.value)] else []
  }

  /** The urgent clause fires only when urgent keywords are really present. */
  predicate UrgentFires(email: RawEmailData, category: EmailCategory) {
    category == Urgent && ContainsKeywords(CombinedText(email), UrgentKeywords)
  }

  /** The human-readable reason: the clauses joined by " / ", or the standard clause. */
  function Reason(email: RawEmailData, category: EmailCategory, settings: ExtensionSettings): string {
    Join(ReasonParts(email, category, settings), ReasonSeparator)
  }

  /** The clauses that fire, or the standard clause alone when none does. */
  function ReasonParts(email: RawEmailData, category: EmailCategory, settings: ExtensionSettings): seq<string> {
    var clauses := ReasonClauses(email, category, settings);
    if |clauses| == 0 then [StandardReason] else clauses
  }

  predicate IsVipClause(s: string) {
    |s| > 0 && s[0] == 'V'
  }

  /** A clause is in the list exactly when it is the VIP clause or a fixed clause whose signal fires. */
  lemma ReasonClauseMembership(email: RawEmailData, category: EmailCategory, settings: ExtensionSettings, x: string)
    ensures x in ReasonClauses(email, category, settings)
            <==> || x in VipClauses(email, settings)
                 || (UrgentFires(email, category) && x == UrgentClause)
                 || (category == Meeting && x == MeetingClause)
                 || (category == Action && x == ActionClause)
                 || (email.isUnread && x == UnreadClause)
                 || (email.isStarred && x == StarredClause)
                 || (email.hasAttachment && x == AttachmentClause)
  {
  }

  /** Each fixed clause appears exactly when its signal fires. */
  lemma ReasonClausesTrackSignals(email: RawEmailData, category: EmailCategory, settings: ExtensionSettings)
    ensures var clauses := ReasonClauses(email, category, settings);
      && (UnreadClause in clauses <==> email.isUnread)
      && (StarredClause in clauses <==> email.isStarred)
      && (AttachmentClause in clauses <==> email.hasAttachment)
      && (MeetingClause in clauses <==> category == Meeting)
      && (ActionClause in clauses <==> category == Action)
      && (UrgentClause in clauses <==> UrgentFires(email, category))
  {
    var vip := VipClauses(email, settings);
    assert forall v | v in vip :: v[0] == 'V';
    ReasonClauseMembership(email, category, settings, UnreadClause);
    ReasonClauseMembership(email, category, settings, StarredClause);
    ReasonClauseMembership(email, category, settings, AttachmentClause);
    ReasonClauseMembership(email, category, settings, MeetingClause);
    ReasonClauseMembership(email, category, settings, ActionClause);
    ReasonClauseMembership(email, category, settings, UrgentClause);
  }

  /** The VIP clause, when present, stands first and names the first matching entry. */
  lemma VipClauseComesFirst(email: RawEmailData, category: EmailCategory, settings: ExtensionSettings, vip: string)
    requires FindVip(email.sender, settings.vipList) == Some(vip) && vip != ""
    ensures ReasonClauses(email, category, settings)[0] == VipClause(vip)
  {
  }

  /** The reason is the standard clause exactly when no clause fires. */
  lemma StandardReasonIffNoClause(email: RawEmailData, category: EmailCategory, settings: ExtensionSettings)
    ensures Reason(email, category, settings) == StandardReason
            <==> ReasonClauses(email, category, settings) == []
  {
    var clauses := ReasonClauses(email, category, settings);
    if |clauses| == 1 {
      var c := clauses[0];
      if IsVipClause(c) {
        assert StandardReason[0] != 'V';
      }
      assert c != StandardReason;
    } else if |clauses| >= 2 {
      JoinContainsSeparator(clauses, ReasonSeparator);
      assert '/' in ReasonSeparator && '/' !in StandardReason;
      NotIncludedByMissingChar(StandardReason, ReasonSeparator, '/');
    }
  }

  /**
   * The imperative reason builder: pushes each clause that fires, falls back to
   * the standard clause when none did, and joins.
   */
  method GenerateReason(
    email: RawEmailData, category: EmailCategory, urgencyScore: int, settings: ExtensionSettings)
    returns (reason: string)
    ensures reason == Reason(email, category, settings)
  {
    var reasons := CollectReasonClauses(email, category, settings);
    if |reasons| == 0 {
      reasons := reasons + [StandardReason];
    }
    assert reasons == ReasonParts(email, category, settings);
    reason := Join(reasons, ReasonSeparator);
  }

  /** The pushes of the reason builder, one `if` per signal, in the extension's order. */
  method CollectReasonClauses(email: RawEmailData, category: EmailCategory, settings: ExtensionSettings)
    returns (reasons: seq<string>)
    ensures reasons == ReasonClauses(email, category, settings)
  {
    reasons := [];
    var combinedText := CombinedText(email);
    var matchedVip := FindVip(email.sender, settings.vipList);
    if matchedVip.Some? && matchedVip.value != "" {
      reasons := reasons + [VipClause(matchedVip.value)];
    }
    ghost var step := reasons;
    assert step == VipClauses(email, settings);
    if category == Urgent && ContainsKeywords(combinedText, UrgentKeywords) {
      reasons := reasons + [UrgentClause];
    }
    assert reasons == PushIf(step, UrgentFires(email, category), UrgentClause);
    step := reasons;
    if category == Meeting {
      reasons := reasons + [MeetingClause];
    }
    assert reasons == PushIf(step, category == Meeting, MeetingClause);
    step := reasons;
    if category == Action {
      reasons := reasons + [ActionClause];
    }
    assert reasons == PushIf(step, category == Action, ActionClause);
    step := reasons;
    if email.isUnread {
      reasons := reasons + [UnreadClause];
    }
    assert reasons == PushIf(step, email.isUnread, UnreadClause);
    step := reasons;
    if email.isStarred {
      reasons := reasons + [StarredClause];
    }
    assert reasons == PushIf(step, email.isStarred, StarredClause);
    step := reasons;
    if email.hasAttachment {
      reasons := reasons + [AttachmentClause];
    }
    assert reasons == PushIf(step, email.hasAttachment, AttachmentClause);
  }

  // ---------------------------------------------------------------------------
  // Classification
  // ---------------------------------------------------------------------------

  /** Classifies one email. */
  function ClassifyEmail(email: RawEmailData, settings: ExtensionSettings, regex: RegexEngine): (c: ClassifiedEmail)
    ensures c.elementId == email.elementId && c.sender == email.sender && c.subject == email.subject
    ensures c.snippet == email.snippet && c.date == email.date
    ensures c.category == Categorize(email)
    ensures 0 <= c.urgencyScore <= 100
    ensures c.urgencyScore == UrgencyScore(email, c.category, settings, regex)
    ensures c.priority == ScoreToPriority(c.urgencyScore)
    ensures c.reason == Reason(email, c.category, settings)
  {
    var category := Categorize(email);
    var urgencyScore := UrgencyScore(email, category, settings, regex);
    var priority := ScoreToPriority(urgencyScore);
    var reason := Reason(email, category, settings);
    ClassifiedEmail(email.elementId, email.sender, email.subject, email.snippet, email.date,
                    priority, urgencyScore, category, reason)
  }

  /**
   * Within a classification the urgent clause appears exactly when the
   * category is urgent: the category can only be urgent through the keywords.
   */
  lemma UrgentClauseIffUrgentCategory(email: RawEmailData, settings: ExtensionSettings)
    ensures UrgentClause in ReasonClauses(email, Categorize(email), settings) <==> Categorize(email) == Urgent
  {
    ReasonClausesTrackSignals(email, Categorize(email), settings);
  }

  /**
   * A VIP sender with nothing else going for it scores exactly 50 + 30 = 80 and
   * is critical: the VIP bonus is not cut short by missing signals.
   */
  lemma VipAloneIsCritical(email: RawEmailData, settings: ExtensionSettings, regex: RegexEngine)
    requires Categorize(email) == Other
    requires !email.isUnread && !email.isStarred && !email.hasAttachment
    requires IsVip(email.sender, settings) && !IsIgnored(email.sender, settings)
    requires settings.customRules == []
    ensures ClassifyEmail(email, settings, regex).urgencyScore == 80
    ensures ClassifyEmail(email, settings, regex).priority == Critical
  {
    CountPositiveIffContains(CombinedText(email), UrgentKeywords);
    CountPositiveIffContains(CombinedText(email), ActionKeywords);
  }

  /**
   * An unread mail holding both an urgent and an action keyword, from a sender
   * that is neither ignored nor automated and without custom rules, is urgent
   * and critical, its raw score of at least 105 clamped to exactly 100; its
   * reason names the urgent keywords and the unread state.
   */
  lemma UrgentActionUnreadIsCritical(email: RawEmailData, settings: ExtensionSettings, regex: RegexEngine)
    requires ContainsKeywords(CombinedText(email), UrgentKeywords)
    requires ContainsKeywords(CombinedText(email), ActionKeywords)
    requires email.isUnread
    requires !IsIgnored(email.sender, settings) && !IsLowPrioritySender(email.sender)
    requires settings.customRules == []
    ensures var c := ClassifyEmail(email, settings, regex);
      && c.category == Urgent
      && c.urgencyScore == 100
      && c.priority == Critical
      && UrgentClause in ReasonClauses(email, Urgent, settings)
      && UnreadClause in ReasonClauses(email, Urgent, settings)
  {
    CountPositiveIffContains(CombinedText(email), UrgentKeywords);
    CountPositiveIffContains(CombinedText(email), ActionKeywords);
    ReasonClausesTrackSignals(email, Urgent, settings);
  }

  /**
   * A mail whose text holds a promotion keyword and no urgent, meeting, action
   * or social keyword, sent from an automated address that is neither VIP nor
   * ignored, with no flags set and no custom rules, is a promotion and not a
   * newsletter (the promotion test comes first), scores exactly
   * 50 - 25 - 20 = 5, is low priority and gets the standard reason.
   */
  lemma AutomatedPromotionIsLow(email: RawEmailData, settings: ExtensionSettings, regex: RegexEngine)
    requires !ContainsKeywords(CombinedText(email), UrgentKeywords)
    requires !ContainsKeywords(CombinedText(email), MeetingKeywords)
    requires !ContainsKeywords(CombinedText(email), ActionKeywords)
    requires !ContainsKeywords(email.sender, SocialKeywords) && !ContainsKeywords(email.subject, SocialKeywords)
    requires ContainsKeywords(CombinedText(email), PromotionKeywords)
    requires IsLowPrioritySender(email.sender)
    requires !email.isUnread && !email.isStarred && !email.hasAttachment
    requires !IsVip(email.sender, settings) && !IsIgnored(email.sender, settings)
    requires settings.customRules == []
    ensures var c := ClassifyEmail(email, settings, regex);
      && c.category == Promotion
      && c.urgencyScore == 5
      && c.priority == Low
      && c.reason == StandardReason
  {
    CountPositiveIffContains(CombinedText(email), UrgentKeywords);
    CountPositiveIffContains(CombinedText(email), ActionKeywords);
    assert FindVip(email.sender, settings.vipList).None?;
    assert ReasonClauses(email, Promotion, settings) == [];
  }

  // ---------------------------------------------------------------------------
  // Batch classification
  // ---------------------------------------------------------------------------

  /** `emails.map(email => classifyEmail(email, settings))` */
  function ClassifyAll(emails: seq<RawEmailData>, settings: ExtensionSettings, regex: RegexEngine): seq<ClassifiedEmail> {
    seq(|emails|, i requires 0 <= i < |emails| => ClassifyEmail(emails[i], settings, regex))
  }

  /** Highest urgency score first. */
  predicate SortedByScore(s: seq<ClassifiedEmail>) {
    forall i, j | 0 <= i < j < |s| :: s[i].urgencyScore >= s[j].urgencyScore
  }

  /** The entries with urgency score `v`, in their order. */
  function WithScore(s: seq<ClassifiedEmail>, v: int): seq<ClassifiedEmail> {
    if |s| == 0 then []
    else (if s[0].urgencyScore == v then [s[0]] else []) + WithScore(s[1..], v)
  }

  /** Entries with equal scores stand in the same relative order in both sequences. */
  ghost predicate SameOrderAmongEqualScores(s: seq<ClassifiedEmail>, t: seq<ClassifiedEmail>) {
    forall v :: WithScore(s, v) == WithScore(t, v)
  }

  lemma SameOrderTransitive(s: seq<ClassifiedEmail>, t: seq<ClassifiedEmail>, u: seq<ClassifiedEmail>)
    requires SameOrderAmongEqualScores(s, t) && SameOrderAmongEqualScores(t, u)
    ensures SameOrderAmongEqualScores(s, u)
  {
  }

  lemma {:induction false} WithScoreAppend(s: seq<ClassifiedEmail>, t: seq<ClassifiedEmail>, v: int)
    ensures WithScore(s + t, v) == WithScore(s, v) + WithScore(t, v)
  {
    if |s| == 0 {
      assert s + t == t;
    } else {
      var head := if s[0].urgencyScore == v then [s[0]] else [];
      assert (s + t)[0] == s[0] && (s + t)[1..] == s[1..] + t;
      assert WithScore(s + t, v) == head + WithScore(s[1..] + t, v);
      WithScoreAppend(s[1..], t, v);
      assert WithScore(s, v) == head + WithScore(s[1..], v);
    }
  }

  lemma {:induction false} WithScoreCounts(s: seq<ClassifiedEmail>, e: ClassifiedEmail)
    ensures multiset(WithScore(s, e.urgencyScore))[e] == multiset(s)[e]
  {
    if |s| > 0 {
      assert s == [s[0]] + s[1..];
      WithScoreCounts(s[1..], e);
    }
  }

  /** Keeping the order among equal scores keeps every entry's multiplicity. */
  lemma SameOrderKeepsMultiset(s: seq<ClassifiedEmail>, t: seq<ClassifiedEmail>)
    requires SameOrderAmongEqualScores(s, t)
    ensures multiset(s) == multiset(t)
  {
    forall e
      ensures multiset(s)[e] == multiset(t)[e]
    {
      WithScoreCounts(s, e);
      WithScoreCounts(t, e);
    }
  }

  /** Exchanging two neighbours with different scores keeps the order among equal scores. */
  lemma SwapOfUnequalScoresKeepsOrder(s: seq<ClassifiedEmail>, j: nat)
    requires 0 < j < |s| && s[j - 1].urgencyScore != s[j].urgencyScore
    ensures SameOrderAmongEqualScores(s[j - 1 := s[j]][j := s[j - 1]], s)
  {
    var t := s[j - 1 := s[j]][j := s[j - 1]];
    var front, back := s[..j - 1], s[j + 1..];
    assert s == front + [s[j - 1], s[j]] + back;
    assert t == front + [s[j], s[j - 1]] + back;
    forall v
      ensures WithScore(t, v) == WithScore(s, v)
    {
      WithScoreAppend(front + [s[j - 1], s[j]], back, v);
      WithScoreAppend(front, [s[j - 1], s[j]], v);
      WithScoreAppend(front + [s[j], s[j - 1]], back, v);
      WithScoreAppend(front, [s[j], s[j - 1]], v);
      assert WithScore([s[j - 1], s[j]], v) == WithScore([s[j], s[j - 1]], v) by {
        assert [s[j - 1], s[j]][1..] == [s[j]];
        assert [s[j], s[j - 1]][1..] == [s[j - 1]];
        assert [s[j]][1..] == [] && [s[j - 1]][1..] == [];
      }
    }
  }

  /** Exchanges the element at `j` with its left neighbour, which scores lower. */
  method SwapWithPrevious(a: array<ClassifiedEmail>, j: nat)
    requires 0 < j < a.Length && a[j - 1].urgencyScore < a[j].urgencyScore
    modifies a
    ensures a[..] == old(a[..])[j - 1 := old(a[j])][j := old(a[j - 1])]
    ensures SameOrderAmongEqualScores(a[..], old(a[..]))
  {
    SwapOfUnequalScoresKeepsOrder(a[..], j);
    a[j - 1], a[j] := a[j], a[j - 1];
  }

  /**
   * Sorts the array in place, highest urgency score first (insertion sort).
   * Only neighbours with different scores are exchanged, so the sort is stable.
   */
  method SortByScoreDescending(a: array<ClassifiedEmail>)
    modifies a
    ensures SortedByScore(a[..])
    ensures multiset(a[..]) == old(multiset(a[..]))
    ensures SameOrderAmongEqualScores(a[..], old(a[..]))
  {
    var i := 0;
    while i < a.Length
      invariant 0 <= i <= a.Length
      invariant forall p, q | 0 <= p < q < i :: a[p].urgencyScore >= a[q].urgencyScore
      invariant SameOrderAmongEqualScores(a[..], old(a[..]))
    {
      ghost var before := a[..];
      InsertIntoSortedPrefix(a, i);
      SameOrderTransitive(a[..], before, old(a[..]));
      i := i + 1;
    }
    SameOrderKeepsMultiset(a[..], old(a[..]));
  }

  /** Moves `a[i]` left past every lower-scoring entry of the sorted prefix `a[..i]`. */
  method InsertIntoSortedPrefix(a: array<ClassifiedEmail>, i: nat)
    requires i < a.Length
    requires forall p, q | 0 <= p < q < i :: a[p].urgencyScore >= a[q].urgencyScore
    modifies a
    ensures forall p, q | 0 <= p < q <= i :: a[p].urgencyScore >= a[q].urgencyScore
    ensures SameOrderAmongEqualScores(a[..], old(a[..]))
  {
    var j := i;
    while j > 0 && a[j - 1].urgencyScore < a[j].urgencyScore
      invariant 0 <= j <= i
      invariant forall p, q | 0 <= p < q <= i && q != j :: a[p].urgencyScore >= a[q].urgencyScore
      invariant 0 < j < i ==> a[j - 1].urgencyScore >= a[j + 1].urgencyScore
      invariant SameOrderAmongEqualScores(a[..], old(a[..]))
    {
      ghost var before := a[..];
      SwapWithPrevious(a, j);
      SameOrderTransitive(a[..], before, old(a[..]));
      j := j - 1;
    }
  }

  /**
   * Classifies every email and orders the results by urgency score, highest
   * first: the result is a permutation of the per-email classifications, and
   * emails with equal scores keep their input order.
   */
  method ClassifyAndSortEmails(emails: seq<RawEmailData>, settings: ExtensionSettings, regex: RegexEngine)
    returns (sorted: seq<ClassifiedEmail>)
    ensures multiset(sorted) == multiset(ClassifyAll(emails, settings, regex))
    ensures SortedByScore(sorted)
    ensures SameOrderAmongEqualScores(sorted, ClassifyAll(emails, settings, regex))
    ensures |sorted| == |emails|
  {
    var classified := ClassifyAll(emails, settings, regex);
    var a := new ClassifiedEmail[|classified|](i requires 0 <= i < |classified| => classified[i]);
    assert a[..] == classified;
    SortByScoreDescending(a);
    sorted := a[..];
    assert |multiset(sorted)| == |multiset(classified)|;
  }

  /** Every result of the batch is the classification of one of the inputs. */
  lemma SortedResultsAreClassifications(
    emails: seq<RawEmailData>, settings: ExtensionSettings, regex: RegexEngine, sorted: seq<ClassifiedEmail>, k: nat)
    requires multiset(sorted) == multiset(ClassifyAll(emails, settings, regex))
    requires k < |sorted|
    ensures exists i | 0 <= i < |emails| :: sorted[k] == ClassifyEmail(emails[i], settings, regex)
  {
    assert sorted[k] in multiset(sorted);
    assert sorted[k] in ClassifyAll(emails, settings, regex);
  }
}
