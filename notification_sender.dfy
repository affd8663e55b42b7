/** The delivery side of a notification
    (notifications_management/notification_sender/notification_sender.py):
    the confirmation link put in every message, and `deliver_notification`,
    which builds a message from a notification and sends it once. The
    builders a concrete sender supplies are passed in as functions; the
    transport is an outbox of sent messages. */
module NotificationSender {
  import opened Wrappers
  import opened Collections
  import opened Config
  import opened Models

  /** What every confirmation link starts with: `domain + url + "?token="`. */
  function LinkPrefix(settings: Settings): string {
    settings.domain + settings.confirmUrl + "?token="
  }

  /** `generate_link`: the fixed prefix followed by the notification's token. */
  function GenerateLink(settings: Settings, n: Notification): (link: string)
    ensures StartsWith(link, LinkPrefix(settings))
    ensures link[|LinkPrefix(settings)|..] == n.token
  {
    var link := LinkPrefix(settings) + n.token;
    assert link[..|LinkPrefix(settings)|] == LinkPrefix(settings);
    link
  }

  /** Reading the token back out of a link: strip the fixed prefix. */
  function TokenOfLink(settings: Settings, link: string): Option<string> {
    if StartsWith(link, LinkPrefix(settings)) then Some(link[|LinkPrefix(settings)|..]) else None
  }

  /** The token is recovered from its link. */
  lemma TokenRoundTrip(settings: Settings, n: Notification)
    ensures TokenOfLink(settings, GenerateLink(settings, n)) == Some(n.token)
  {
  }

  /** For fixed settings the link depends on the token alone, and different
      tokens give different links. */
  lemma LinkDeterminedByToken(settings: Settings, n: Notification, m: Notification)
    ensures GenerateLink(settings, n) == GenerateLink(settings, m) <==> n.token == m.token
  {
    if GenerateLink(settings, n) == GenerateLink(settings, m) {
      TokenRoundTrip(settings, n);
      TokenRoundTrip(settings, m);
    }
  }

  /** One sent message, as handed to `send`. */
  datatype Mail = Mail(subject: string, content: string, recipient: string)

  /** `deliver_notification`: the content, subject and recipient computed
      from the one notification, sent once; the earlier messages stay. */
  function DeliverNotification(
    outbox: seq<Mail>, n: Notification,
    content: Notification -> string, subject: Notification -> string, recipient: Notification -> string): (r: seq<Mail>)
    ensures |r| == |outbox| + 1 && r[..|outbox|] == outbox
    ensures r[|outbox|] == Mail(subject(n), content(n), recipient(n))
  {
    outbox + [Mail(subject(n), content(n), recipient(n))]
  }
}
