/**
 * The data shapes of the extension: a scraped inbox row, its classification,
 * the user's rules and the persisted settings.
 */
module EmailTypes {

  datatype PriorityLevel = Critical | High | Medium | Low

  datatype EmailCategory =
    | Urgent | Important | Meeting | Action | Fyi
    | Newsletter | Promotion | Social | Other

  /** One inbox row as read from the page. */
  datatype RawEmailData = RawEmailData(
    elementId: string,
    sender: string,
    subject: string,
    snippet: string,
    date: string,
    isUnread: bool,
    hasAttachment: bool,
    isStarred: bool)

  datatype ClassifiedEmail = ClassifiedEmail(
    elementId: string,
    sender: string,
    subject: string,
    snippet: string,
    date: string,
    priority: PriorityLevel,
    urgencyScore: int,
    category: EmailCategory,
    reason: string)

  datatype ConditionField = Sender | Subject | Snippet

  /**
   * The five match types the rule editor offers; `Unrecognized` stands for any
   * other tag a stored rule may carry.
   */
  datatype MatchType =
    | Contains | StartsWith | EndsWith | Regex | Exact
    | Unrecognized(tag: string)

  datatype RuleCondition = RuleCondition(
    field: ConditionField,
    matchType: MatchType,
    value: string,
    caseSensitive: bool)

  datatype ClassificationRule = ClassificationRule(
    id: string,
    name: string,
    enabled: bool,
    conditions: seq<RuleCondition>,
    priority: PriorityLevel,
    category: EmailCategory,
    scoreBoost: int)

  datatype Theme = Light | Dark | Auto

  datatype ExtensionSettings = ExtensionSettings(
    enabled: bool,
    autoSort: bool,
    showScores: bool,
    showBadges: bool,
    vipList: seq<string>,
    ignoreList: seq<string>,
    customRules: seq<ClassificationRule>,
    theme: Theme)

  /** `email[condition.field]` */
  function FieldValue(email: RawEmailData, field: ConditionField): string {
    match field
    case Sender => email.sender
    case Subject => email.subject
    case Snippet => email.snippet
  }
}
