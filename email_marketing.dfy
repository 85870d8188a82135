/** The campaign form of src/components/email-marketing.tsx: template choice,
    placeholder substitution, recipient selection and the send handler. */
module EmailMarketing {
  import opened Common
  import opened Text

  datatype TemplateKey = Promotional | Newsletter | Announcement

  /** The subject line each template suggests. */
  function TemplateSubject(k: TemplateKey): string
  {
    match k
    case Promotional => "Special Offer Just for You!"
    case Newsletter => "What's New at Our Restaurant"
    case Announcement => "Important Update from Us"
  }

  const TitleTag: string := "{{TITLE}}"
  const SubtitleTag: string := "{{SUBTITLE}}"
  const ContentTag: string := "{{CONTENT}}"
  const LinkTag: string := "{{LINK}}"
  const NameTag: string := "{{RESTAURANT_NAME}}"
  const AddressTag: string := "{{RESTAURANT_ADDRESS}}"
  const PhoneTag: string := "{{RESTAURANT_PHONE}}"

  /** The restaurant facts the footer placeholders take. */
  datatype RestaurantInfo = RestaurantInfo(name: string, street: string, city: string, phone: string)

  /** The content with every line break turned into `<br>`. */
  function ContentHtml(content: string): (r: string)
    ensures '\n' !in r
    ensures '\n' !in content ==> r == content
  {
    ReplaceAllCharRemoves(content, '\n', "<br>");
    if '\n' !in content then
      FirstCharAbsent(content, "", "\n");
      assert content + "" == content;
      ReplaceAllAbsent(content, "\n", "<br>");
      ReplaceAll(content, "\n", "<br>")
    else ReplaceAll(content, "\n", "<br>")
  }

  /** Each line break becomes `<br>` in place: the text before the first break is kept,
      and the rest is converted the same way. */
  lemma ContentHtmlLineBreak(a: string, b: string)
    requires '\n' !in a
    ensures ContentHtml(a + "\n" + b) == a + "<br>" + ContentHtml(b)
  {
    FirstCharAbsent(a, "\n" + b, "\n");
    assert a + ("\n" + b) == a + "\n" + b;
    ReplaceAllAt(a, "\n", "<br>", b);
  }

  /** The link placeholder's value: the link, or `#` when it is empty. */
  function LinkValue(link: string): (r: string)
    ensures link == "" ==> r == "#"
    ensures link != "" ==> r == link
  {
    OrElse(Some(link), "#")
  }

  /** The substitutions, in the order the handler applies them: the four form fields at
      their first occurrence, the three restaurant facts everywhere. */
  function Render(markup: string, title: string, subject: string, content: string, link: string,
                  info: RestaurantInfo): string
  {
    var h1 := ReplaceFirst(markup, TitleTag, title);
    var h2 := ReplaceFirst(h1, SubtitleTag, subject);
    var h3 := ReplaceFirst(h2, ContentTag, ContentHtml(content));
    var h4 := ReplaceFirst(h3, LinkTag, LinkValue(link));
    var h5 := ReplaceAll(h4, NameTag, info.name);
    var h6 := ReplaceAll(h5, AddressTag, info.street + ", " + info.city);
    ReplaceAll(h6, PhoneTag, info.phone)
  }

  /** Every placeholder starts with '{'. */
  lemma NoBraceNoTag(s: string)
    requires '{' !in s
    ensures forall rep :: (
      && ReplaceFirst(s, TitleTag, rep) == s
      && ReplaceFirst(s, SubtitleTag, rep) == s && ReplaceFirst(s, ContentTag, rep) == s
      && ReplaceFirst(s, LinkTag, rep) == s && ReplaceAll(s, NameTag, rep) == s
      && ReplaceAll(s, AddressTag, rep) == s && ReplaceAll(s, PhoneTag, rep) == s)
  {
    assert s + "" == s;
    forall rep ensures
      && ReplaceFirst(s, TitleTag, rep) == s
      && ReplaceFirst(s, SubtitleTag, rep) == s && ReplaceFirst(s, ContentTag, rep) == s
      && ReplaceFirst(s, LinkTag, rep) == s && ReplaceAll(s, NameTag, rep) == s
      && ReplaceAll(s, AddressTag, rep) == s && ReplaceAll(s, PhoneTag, rep) == s {
      FirstCharAbsent(s, "", TitleTag);
      ReplaceFirstAbsent(s, TitleTag, rep);
      FirstCharAbsent(s, "", SubtitleTag);
      ReplaceFirstAbsent(s, SubtitleTag, rep);
      FirstCharAbsent(s, "", ContentTag);
      ReplaceFirstAbsent(s, ContentTag, rep);
      FirstCharAbsent(s, "", LinkTag);
      ReplaceFirstAbsent(s, LinkTag, rep);
      FirstCharAbsent(s, "", NameTag);
      ReplaceAllAbsent(s, NameTag, rep);
      FirstCharAbsent(s, "", AddressTag);
      ReplaceAllAbsent(s, AddressTag, rep);
      FirstCharAbsent(s, "", PhoneTag);
      ReplaceAllAbsent(s, PhoneTag, rep);
    }
  }

  /** Markup without placeholders is sent as it is. */
  lemma RenderWithoutPlaceholders(markup: string, title: string, subject: string, content: string, link: string,
                                  info: RestaurantInfo)
    requires '{' !in markup
    ensures Render(markup, title, subject, content, link, info) == markup
  {
    NoBraceNoTag(markup);
  }

  /** Only the first `{{TITLE}}` is filled in: a template with the title tag in one place
      and a title free of braces render to the title in that place. */
  lemma RenderFillsTitle(a: string, b: string, title: string, subject: string, content: string, link: string,
                         info: RestaurantInfo)
    requires '{' !in a && '{' !in b && '{' !in title
    ensures Render(a + TitleTag + b, title, subject, content, link, info) == a + title + b
  {
    FirstCharAbsent(a, TitleTag + b, TitleTag);
    assert a + TitleTag + b == a + (TitleTag + b);
    ReplaceFirstAt(a, TitleTag, title, b);
    NoBraceNoTag(a + title + b);
  }

  /** A second `{{TITLE}}` stays in the mail. */
  lemma SecondTitleKept(a: string, b: string, title: string)
    requires '{' !in a
    ensures ReplaceFirst(a + TitleTag + b, TitleTag, title) == a + title + b
  {
    FirstCharAbsent(a, TitleTag + b, TitleTag);
    assert a + TitleTag + b == a + (TitleTag + b);
    ReplaceFirstAt(a, TitleTag, title, b);
  }

  /** Every `{{RESTAURANT_NAME}}` is filled in, not just the first. */
  lemma NameFilledEverywhere(a: string, b: string, c: string, name: string)
    requires '{' !in a && '{' !in b && '{' !in c
    ensures ReplaceAll(a + NameTag + b + NameTag + c, NameTag, name) == a + name + b + name + c
  {
    FirstCharAbsent(a, NameTag + b + NameTag + c, NameTag);
    assert a + NameTag + b + NameTag + c == a + NameTag + (b + NameTag + c);
    ReplaceAllAt(a, NameTag, name, b + NameTag + c);
    FirstCharAbsent(b, NameTag + c, NameTag);
    ReplaceAllAt(b, NameTag, name, c);
    assert c + "" == c;
    FirstCharAbsent(c, "", NameTag);
    ReplaceAllAbsent(c, NameTag, name);
  }

  /** A customer row as the form reads it. */
  datatype Customer = Customer(id: int, email: string)

  /** The email column of the customers, in order. */
  function Emails(cs: seq<Customer>): (r: seq<string>)
    ensures |r| == |cs|
    ensures forall i | 0 <= i < |cs| :: r[i] == cs[i].email
  {
    if cs == [] then [] else [cs[0].email] + Emails(cs[1..])
  }

  /** The customers whose id was ticked, in customer order. */
  function Selected(cs: seq<Customer>, ticked: seq<int>): (r: seq<Customer>)
    ensures forall c :: c in r <==> c in cs && c.id in ticked
    ensures |r| <= |cs|
  {
    if cs == [] then []
    else if cs[0].id in ticked then [cs[0]] + Selected(cs[1..], ticked)
    else Selected(cs[1..], ticked)
  }

  /** Selecting from a concatenation selects from each part and keeps their order. */
  lemma {:induction false} SelectedAppend(a: seq<Customer>, b: seq<Customer>, ticked: seq<int>)
    ensures Selected(a + b, ticked) == Selected(a, ticked) + Selected(b, ticked)
  {
    if a == [] {
      assert a + b == b;
    } else {
      assert (a + b)[0] == a[0];
      assert (a + b)[1..] == a[1..] + b;
      SelectedAppend(a[1..], b, ticked);
    }
  }

  /** The recipient list: all customers, or the ticked ones, with a placeholder address
      when the list comes out empty. */
  function Recipients(customers: Option<seq<Customer>>, selectAll: bool, ticked: seq<int>): (r: seq<string>)
    ensures r != []
    ensures customers.None? ==> r == ["test@example.com"]
    ensures customers.Some? && selectAll && customers.value != [] ==> r == Emails(customers.value)
    ensures customers.Some? && !selectAll && Selected(customers.value, ticked) != [] ==>
      r == Emails(Selected(customers.value, ticked))
    ensures r != ["test@example.com"] ==> (customers.Some? &&
      forall e | e in r :: exists c | c in customers.value :: c.email == e && (selectAll || c.id in ticked))
  {
    var chosen :=
      if customers.None? then []
      else if selectAll then Emails(customers.value)
      else Emails(Selected(customers.value, ticked));
    if |chosen| == 0 then ["test@example.com"] else chosen
  }

  /** What the mail service answered, or what it threw (`None`: not an `Error`). */
  datatype ServiceReply = Replied(success: bool, error: Option<string>) | Threw(message: Option<string>)

  datatype Toast = Toast(title: string, description: string, destructive: bool)

  /** A request handed to the mail service. */
  datatype CampaignRequest = CampaignRequest(recipients: seq<string>, subject: string, htmlContent: string)

  /** The form's state. */
  class EmailMarketingForm {
    var selectedTemplate: TemplateKey
    var emailSubject: string
    var emailTitle: string
    var emailContent: string
    var emailLink: string
    var selectAll: bool
    var selectedCustomers: seq<int>
    var isSending: bool
    var emailSent: bool
    /** The requests sent and the toasts shown so far. */
    var requests: seq<CampaignRequest>
    var toasts: seq<Toast>

    constructor ()
      ensures selectedTemplate == Promotional && emailSubject == TemplateSubject(Promotional)
      ensures emailTitle == "" && emailContent == "" && emailLink == ""
      ensures selectAll && selectedCustomers == [] && !isSending && !emailSent
      ensures requests == [] && toasts == []
    {
      selectedTemplate := Promotional;
      emailSubject := TemplateSubject(Promotional);
      emailTitle := "";
      emailContent := "";
      emailLink := "";
      selectAll := true;
      selectedCustomers := [];
      isSending := false;
      emailSent := false;
      requests := [];
      toasts := [];
    }

    /** `handleTemplateChange`: choosing a template also sets its subject. */
    method HandleTemplateChange(k: TemplateKey)
      modifies this`selectedTemplate, this`emailSubject
      ensures selectedTemplate == k && emailSubject == TemplateSubject(k)
    {
      selectedTemplate := k;
      emailSubject := TemplateSubject(k);
    }

    /** `handleSendEmail`. `markup` gives each template's HTML and `reply` is the mail
        service's answer. Nothing is sent without a title and content. */
    method HandleSendEmail(markup: TemplateKey -> string, info: RestaurantInfo,
                           customers: Option<seq<Customer>>, reply: ServiceReply)
      modifies this`isSending, this`emailSent, this`requests, this`toasts
      ensures emailTitle == "" || emailContent == "" ==>
        && requests == old(requests)
        && toasts == old(toasts) + [Toast("Missing Information", "Please fill in title and content", true)]
        && isSending == old(isSending) && emailSent == old(emailSent)
      ensures emailTitle != "" && emailContent != "" ==>
        && requests == old(requests) + [CampaignRequest(
             Recipients(customers, selectAll, selectedCustomers),
             emailSubject,
             Render(markup(selectedTemplate), emailTitle, emailSubject, emailContent, emailLink, info))]
        && !isSending
        && (emailSent <==> reply.Replied? && reply.success)
        && |toasts| == |old(toasts)| + 1
        && (toasts[|toasts| - 1].destructive <==> !emailSent)
        && (reply.Replied? && !reply.success ==>
              toasts[|toasts| - 1].description == OrElse(reply.error, "Failed to send emails"))
        && (reply.Threw? ==> toasts[|toasts| - 1].description == (if reply.message.Some? then reply.message.value else "Unknown error"))
        && toasts[..|old(toasts)|] == old(toasts)
        && (reply.Replied? && reply.success ==>
              toasts[|toasts| - 1] == Toast("Emails Sent Successfully",
                "Marketing emails have been sent to " + NatToString(|Recipients(customers, selectAll, selectedCustomers)|)
                + " customer(s)", false))
        && (!emailSent ==> toasts[|toasts| - 1].title == "Failed to Send Emails")
    {
      if emailTitle == "" || emailContent == "" {
        toasts := toasts + [Toast("Missing Information", "Please fill in title and content", true)];
        return;
      }
      isSending := true;
      emailSent := false;
      var html := Render(markup(selectedTemplate), emailTitle, emailSubject, emailContent, emailLink, info);
      var recipients := Recipients(customers, selectAll, selectedCustomers);
      requests := requests + [CampaignRequest(recipients, emailSubject, html)];
      match reply {
        case Replied(success, error) =>
          if success {
            toasts := toasts + [Toast("Emails Sent Successfully",
              "Marketing emails have been sent to " + NatToString(|recipients|) + " customer(s)", false)];
            emailSent := true;
          } else {
            toasts := toasts + [Toast("Failed to Send Emails", OrElse(error, "Failed to send emails"), true)];
          }
        case Threw(message) =>
          toasts := toasts + [Toast("Failed to Send Emails", if message.Some? then message.value else "Unknown error", true)];
      }
      isSending := false;
    }

    /** The reset three seconds after a successful send. */
    method ResetAfterSend()
      modifies this`emailTitle, this`emailContent, this`emailLink, this`emailSent
      ensures emailTitle == "" && emailContent == "" && emailLink == "" && !emailSent
    {
      emailTitle := "";
      emailContent := "";
      emailLink := "";
      emailSent := false;
    }
  }
}
