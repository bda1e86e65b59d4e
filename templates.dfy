/** Rendering of the four moderation emails: a subject constant chosen by
    content kind and outcome, and an HTML body observed only through the
    substrings it contains. */
module Templates {
  import opened Text
  import opened Moderation

  /** The subject constants and the organisation's sign-off block. Their text
      is defined outside this model, so it is a parameter. */
  datatype EmailConstants = EmailConstants(
    howToApprovalSubject: string,
    howToSubmissionSubject: string,
    mapPinApprovalSubject: string,
    mapPinSubmissionSubject: string,
    signoff: string)

  /** The content an email is about. */
  datatype Content = HowToContent(id: string, title: string) | MapPinContent(id: string)

  /** The `message` part of an email record. */
  datatype Message = Message(subject: string, html: string)

  function Subject(t: Transition, c: Content, text: EmailConstants): string
    requires t != NoOp
  {
    match c
    case HowToContent(_, _) =>
      if t == Approved then text.howToApprovalSubject else text.howToSubmissionSubject
    case MapPinContent(_) =>
      if t == Approved then text.mapPinApprovalSubject else text.mapPinSubmissionSubject
  }

  /** The sentence announcing the outcome. */
  function Announcement(t: Transition, c: Content): string
    requires t != NoOp
  {
    match c
    case HowToContent(_, title) =>
      if t == Approved then "Huzzah! Your How-To " + title + " has been approved."
      else "Huzzah! Your How-To " + title + " has been submitted."
    case MapPinContent(_) =>
      if t == Approved then "Your map pin has been approved." else "Your map pin has been submitted."
  }

  /** The absolute address of the content on the site. */
  function ContentUrl(c: Content, siteUrl: string): string
  {
    match c
    case HowToContent(id, _) => siteUrl + "/how-to/" + id
    case MapPinContent(id) => siteUrl + "/map#" + id
  }

  /** Renders the email for an approval or a submission. Approvals link to
      the content; every email greets the owner by display name and ends
      with the sign-off. */
  function Render(t: Transition, c: Content, displayName: string, siteUrl: string, text: EmailConstants): (m: Message)
    requires t != NoOp
    ensures c.HowToContent? && t == Approved ==> m.subject == text.howToApprovalSubject
    ensures c.HowToContent? && t == Submitted ==> m.subject == text.howToSubmissionSubject
    ensures c.MapPinContent? && t == Approved ==> m.subject == text.mapPinApprovalSubject
    ensures c.MapPinContent? && t == Submitted ==> m.subject == text.mapPinSubmissionSubject
    ensures Contains(m.html, "Hey " + displayName)
    ensures c.HowToContent? && t == Approved ==>
      Contains(m.html, "Huzzah! Your How-To " + c.title + " has been approved.")
    ensures c.HowToContent? && t == Submitted ==>
      Contains(m.html, "Huzzah! Your How-To " + c.title + " has been submitted.")
    ensures c.MapPinContent? && t == Submitted ==> Contains(m.html, "Your map pin has been submitted.")
    ensures c.HowToContent? && t == Approved ==> Contains(m.html, siteUrl + "/how-to/" + c.id)
    ensures c.MapPinContent? && t == Approved ==> Contains(m.html, siteUrl + "/map#" + c.id)
    ensures Contains(m.html, text.signoff)
  {
    var url := ContentUrl(c, siteUrl);
    var link := if t == Approved then ["<p><a href=\"", url, "\">", url, "</a></p>"] else [];
    var parts := ["<p>", "Hey " + displayName, "</p><p>", Announcement(t, c), "</p>"] + link + [text.signoff];
    JoinContainsPart(parts, 1);
    JoinContainsPart(parts, 3);
    JoinContainsPart(parts, |parts| - 1);
    if t == Approved then
      JoinContainsPart(parts, 6);
      Message(Subject(t, c, text), Join(parts))
    else
      Message(Subject(t, c, text), Join(parts))
  }
}
