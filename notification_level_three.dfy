/** The level-three message text
    (notifications_management/notification_level/notification_level_three.py). */
module NotificationLevelThree {
  import opened Wrappers
  import opened Collections
  import opened Decimal
  import opened Config
  import opened Models
  import opened NotificationSender

  /** The level of the assignment a notification targets. */
  function LevelOf(n: Notification): int {
    n.caregiver.level.level
  }

  /** What the subject says before the level number. */
  function SubjectPrefix(n: Notification): string {
    var elderly := n.caregiver.elderly;
    "Assistance Requested for " + elderly.firstName + " " + elderly.lastName + " - Caregiver Level "
  }

  /** `generate_subject`: names the resident and ends with the level number. */
  function GenerateSubject(n: Notification): (r: string)
    ensures StartsWith(r, SubjectPrefix(n))
    ensures r[|SubjectPrefix(n)|..] == IntToDecimal(LevelOf(n))
  {
    var r := SubjectPrefix(n) + IntToDecimal(LevelOf(n));
    assert r[..|SubjectPrefix(n)|] == SubjectPrefix(n);
    r
  }

  /** The subject determines the level of a non-negative tier. */
  lemma SubjectStatesLevel(n: Notification)
    requires LevelOf(n) >= 0
    ensures ParseNat(GenerateSubject(n)[|SubjectPrefix(n)|..]) == LevelOf(n)
  {
    ParseFormatsBack(LevelOf(n));
  }

  /** The salutation the body opens with. */
  function Greeting(n: Notification): string {
    var caregiver := n.caregiver.caregiver;
    "Dear " + caregiver.firstName + " " + caregiver.lastName + ",\n\n"
  }

  /** The sentence that gives the level. */
  function LevelSentence(n: Notification): string {
    "with a caregiver level of " + IntToDecimal(LevelOf(n)) + ".\n\n"
  }

  /** The opening of the request, naming the resident. */
  function Opening(n: Notification): string {
    var elderly := n.caregiver.elderly;
    "We request your assistance for " + elderly.firstName + " " + elderly.lastName + " "
  }

  /** The alert details and the instruction to click. */
  function Details(n: Notification): string {
    var elderly := n.caregiver.elderly;
    var alert := n.sensorAlert;
    "Reason: A new alert has been triggered for " + elderly.firstName + " "
    + elderly.lastName + " with the following details:\n\n"
    + "Start: " + alert.start + "\n"
    + "Location: " + alert.location + "\n"
    + "State: " + alert.state + "\n"
    + "Measurable: " + alert.measurable + "\n\n"
    + "Please click on the following link to confirm "
    + "that you have received this notification and will provide the "
    + "necessary assistance.\n\n"
  }

  const LinkLabel: string := "Confirmation link: "
  const SignOff: string := "Best regards,\nIFT785 Project Team"

  /** How the body opens: the greeting, the resident and the level. */
  function Head(n: Notification): string {
    Greeting(n) + Opening(n) + LevelSentence(n)
  }

  /** How the body closes: the labelled link, a blank line and the signature. */
  function Tail(settings: Settings, n: Notification): string {
    LinkLabel + GenerateLink(settings, n) + "\n\n" + SignOff
  }

  /** `generate_content`: opens with the greeting, the resident and the level,
      and closes with the confirmation link and the team's signature; the
      alert's details come in between. */
  function GenerateContent(settings: Settings, n: Notification): (r: string)
    ensures StartsWith(r, Head(n))
    ensures EndsWith(r, Tail(settings, n))
  {
    ConcatParts(Head(n), Details(n), Tail(settings, n));
    Head(n) + Details(n) + Tail(settings, n)
  }

  /** The body is addressed to the caregiver by name. */
  lemma ContentGreetsCaregiver(settings: Settings, n: Notification)
    ensures StartsWith(GenerateContent(settings, n), Greeting(n))
  {
    ConcatParts(Greeting(n), Opening(n), LevelSentence(n));
    StartsWithTrans(GenerateContent(settings, n), Head(n), Greeting(n));
  }

  /** The body states the caregiver's level. */
  lemma ContentStatesLevel(settings: Settings, n: Notification)
    ensures Contains(GenerateContent(settings, n), LevelSentence(n))
  {
    ConcatParts(Greeting(n), Opening(n), LevelSentence(n));
    ContainsPrefixEnd(GenerateContent(settings, n), Head(n), LevelSentence(n));
  }

  /** The body closes with a labelled link from which the notification's
      token reads back. */
  lemma ContentCarriesToken(settings: Settings, n: Notification)
    ensures exists link :: EndsWith(GenerateContent(settings, n), LinkLabel + link + "\n\n" + SignOff)
                           && TokenOfLink(settings, link) == Some(n.token)
  {
    TokenRoundTrip(settings, n);
    assert Tail(settings, n) == LinkLabel + GenerateLink(settings, n) + "\n\n" + SignOff;
  }

  /** The body ends with the team's signature. */
  lemma ContentSignedByTeam(settings: Settings, n: Notification)
    ensures EndsWith(GenerateContent(settings, n), SignOff)
  {
    Halves(LinkLabel + GenerateLink(settings, n) + "\n\n", SignOff);
    EndsWithTrans(GenerateContent(settings, n), Tail(settings, n), SignOff);
  }

  /** `EmailNotificationSender.get_recipient`: the caregiver's address. */
  function EmailRecipient(n: Notification): (r: string)
    ensures r == n.caregiver.caregiver.email
  {
    n.caregiver.caregiver.email
  }

  /** Delivering a level-three notification by email sends one message, to
      the caregiver, whose subject gives the level and whose body closes with
      a link that carries that notification's token. */
  lemma DeliverLevelThree(outbox: seq<Mail>, settings: Settings, n: Notification)
    ensures var sent := DeliverNotification(outbox, n,
                          (m: Notification) => GenerateContent(settings, m), GenerateSubject, EmailRecipient);
      && |sent| == |outbox| + 1 && sent[..|outbox|] == outbox
      && sent[|outbox|].recipient == n.caregiver.caregiver.email
      && sent[|outbox|].subject == GenerateSubject(n)
      && exists link :: EndsWith(sent[|outbox|].content, LinkLabel + link + "\n\n" + SignOff)
                        && TokenOfLink(settings, link) == Some(n.token)
  {
    var sent := DeliverNotification(outbox, n,
                  (m: Notification) => GenerateContent(settings, m), GenerateSubject, EmailRecipient);
    assert sent[|outbox|].content == GenerateContent(settings, n);
    ContentCarriesToken(settings, n);
  }
}
