/** `ContactButton`: a button that records a lead for a provider and then
    reveals a phone number, opens a website or booking page, or starts an
    email. */
module Contact {
  import opened Text

  datatype Kind = Phone | Email | Website | Booking
  datatype SourcePage = SearchResults | ProviderProfile

  /** One `trackLead` call. */
  datatype Lead = Lead(providerId: nat, leadType: string, sourcePage: SourcePage)

  /** What a click does once the lead is recorded. */
  datatype Action = NoAction | Reveal | OpenWindow(url: string) | Navigate(url: string)

  /** What is on screen: the revealed phone link, or the button. */
  datatype Rendering = TelLink(href: string, text: string) | Button(caption: string)

  /** The lead type reported for a kind of button, built as the component
      builds it: "phone_reveal", or a prefix followed by "_click". */
  function LeadType(kind: Kind): (r: string)
    ensures kind == Phone <==> r == "phone_reveal"
    ensures kind == Website <==> r == "website_click"
    ensures kind == Booking <==> r == "booking_click"
    ensures kind == Email <==> r == "contact_click"
  {
    // the four lead types differ in their first letter
    assert "phone_reveal"[0] == 'p' && "website_click"[0] == 'w';
    assert "booking_click"[0] == 'b' && "contact_click"[0] == 'c';
    if kind == Phone then "phone_reveal"
    else (if kind == Website then "website" else if kind == Booking then "booking" else "contact") + "_click"
  }

  /** The effect of a click whose lead was recorded: phone reveals, website
      and booking open the normalised URL, email navigates to `mailto:`. */
  function ActionFor(kind: Kind, value: string): (a: Action)
    ensures a != NoAction
    ensures a == Reveal <==> kind == Phone
    ensures a.OpenWindow? <==> kind in {Website, Booking}
    ensures a.OpenWindow? ==> a.url == NormalizeUrl(value)
    ensures a.OpenWindow? ==> StartsWith(a.url, "http") && (StartsWith(value, "http") ==> a.url == value)
    ensures a.OpenWindow? && !StartsWith(value, "http") ==> a.url == "https://" + value
    ensures a.Navigate? ==> kind == Email && a.url == "mailto:" + value
  {
    match kind
    case Phone => Reveal
    case Website => OpenWindow(NormalizeUrl(value))
    case Booking => OpenWindow(NormalizeUrl(value))
    case Email => Navigate("mailto:" + value)
  }

  /** The button's text: the phone number only once revealed. */
  function Label(kind: Kind, revealed: bool, value: string): (r: string)
    ensures kind == Phone && revealed ==> r == value
    ensures kind == Phone && !revealed ==> r == "Show Phone"
    ensures kind == Email ==> r == "Email"
    ensures kind == Website ==> r == "Website"
    ensures kind == Booking ==> r == "Book Consult"
  {
    match kind
    case Phone => if revealed then value else "Show Phone"
    case Email => "Email"
    case Website => "Website"
    case Booking => "Book Consult"
  }

  class ContactButton {
    const providerId: nat
    const kind: Kind
    const value: string
    const sourcePage: SourcePage
    var revealed: bool
    /** Every `trackLead` call, oldest first. */
    var leads: seq<Lead>

    constructor (providerId: nat, kind: Kind, value: string, sourcePage: SourcePage)
      ensures this.providerId == providerId && this.kind == kind && this.value == value
      ensures this.sourcePage == sourcePage
      ensures !revealed && leads == []
    {
      this.providerId := providerId;
      this.kind := kind;
      this.value := value;
      this.sourcePage := sourcePage;
      revealed := false;
      leads := [];
    }

    /** What the component renders: once a phone button is revealed, a
        `tel:` link showing the number; otherwise the button. */
    function Rendered(): (r: Rendering)
      reads this
      ensures r.TelLink? <==> kind == Phone && revealed
      ensures r.TelLink? ==> r.href == "tel:" + value && r.text == value
      ensures r.Button? ==> r.caption == Label(kind, revealed, value)
    {
      if kind == Phone && revealed then TelLink("tel:" + value, value) else Button(Label(kind, revealed, value))
    }

    /** `handleClick`, available while the button is rendered: the lead is
        recorded; only if that call resolves (`tracked`) does the action
        happen. */
    method Click(tracked: bool) returns (action: Action)
      requires Rendered().Button?
      modifies this
      ensures leads == old(leads) + [Lead(providerId, LeadType(kind), sourcePage)]
      ensures action == if tracked then ActionFor(kind, value) else NoAction
      ensures revealed <==> old(revealed) || (tracked && kind == Phone)
    {
      leads := leads + [Lead(providerId, LeadType(kind), sourcePage)];
      if !tracked {
        return NoAction;
      }
      action := ActionFor(kind, value);
      if kind == Phone {
        revealed := true;
      }
    }
  }

  /** A phone button: a rejected lead call reveals nothing; a resolved one
      turns the button into the `tel:` link. */
  method PhoneRevealScenario()
  {
    var b := new ContactButton(7, Phone, "916-555-0100", SearchResults);
    assert b.Rendered() == Button("Show Phone");
    var a := b.Click(false);
    assert a == NoAction && !b.revealed;
    a := b.Click(true);
    assert a == Reveal && b.Rendered() == TelLink("tel:916-555-0100", "916-555-0100");
    assert |b.leads| == 2;
  }
}
