/**
 * The fixed keyword tables of the classifier, one per category, and the
 * automated-sender address patterns.
 */
module Keywords {

  const UrgentKeywords: seq<string> := [
    "緊急", "至急", "急ぎ", "URGENT", "urgent", "ASAP", "asap",
    "今日中", "本日中", "即日", "直ちに", "immediately",
    "重要", "要対応", "要返信", "要確認", "期限",
    "deadline", "Deadline", "締切", "締め切り"
  ]

  const MeetingKeywords: seq<string> := [
    "会議", "ミーティング", "meeting", "Meeting", "MTG", "mtg",
    "打ち合わせ", "打合せ", "予定", "スケジュール", "schedule",
    "calendar", "Calendar", "招待", "invitation", "Invitation",
    "Zoom", "zoom", "Teams", "Google Meet", "Webex"
  ]

  const ActionKeywords: seq<string> := [
    "確認してください", "ご確認", "お願いします", "お願い致します",
    "返信", "reply", "Reply", "response", "Response",
    "承認", "申請", "approval", "Approval", "request", "Request",
    "レビュー", "review", "Review", "feedback", "Feedback"
  ]

  const NewsletterKeywords: seq<string> := [
    "ニュースレター", "newsletter", "Newsletter",
    "配信", "お知らせ", "最新情報", "update", "Update",
    "digest", "Digest", "weekly", "Weekly", "monthly", "Monthly"
  ]

  const PromotionKeywords: seq<string> := [
    "セール", "sale", "Sale", "SALE", "割引", "discount", "Discount",
    "クーポン", "coupon", "Coupon", "キャンペーン", "campaign",
    "限定", "特別", "special", "Special", "offer", "Offer",
    "無料", "free", "Free", "FREE", "お得", "ポイント"
  ]

  const SocialKeywords: seq<string> := [
    "Twitter", "twitter", "X.com", "Facebook", "facebook",
    "LinkedIn", "linkedin", "Instagram", "instagram",
    "いいね", "like", "Like", "コメント", "comment", "Comment",
    "フォロー", "follow", "Follow", "メンション", "mention",
    "リツイート", "retweet", "share", "Share"
  ]

  /**
   * The case-insensitive address patterns of automated senders. Each JavaScript
   * pattern is a literal followed by `@`; `notifications?@` is the two
   * literals `notification@` and `notifications@`. All entries are lower case.
   */
  const LowPrioritySenderPatterns: seq<string> := [
    "noreply@", "no-reply@", "donotreply@",
    "notification@", "notifications@",
    "newsletter@", "marketing@", "info@", "support@", "mailer@"
  ]
}
