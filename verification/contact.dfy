/** `formatContact` of the map popup: the contact value with a label naming
    its kind. */
module Contact {

  import opened Profiles

  /** The label shown before a contact value of the given type tag; the
      `other` tag and any unrecognised tag get none. */
  function ContactLabel(contactType: string): string {
    if contactType == "email" then "Email: "
    else if contactType == "phone" then "Phone: "
    else if contactType == "facebook" then "Facebook: "
    else ""
  }

  /** The three tags that get a label. */
  predicate Labelled(contactType: string) {
    contactType == "email" || contactType == "phone" || contactType == "facebook"
  }

  /** `formatContact`: the label of the profile's contact type followed by the
      contact value. */
  function FormatContact(p: Profile): (r: string)
    ensures r == ContactLabel(p.contactType) + p.contactValue
    ensures !Labelled(p.contactType) ==> r == p.contactValue
  {
    match p.contactType
    case "email" => "Email: " + p.contactValue
    case "phone" => "Phone: " + p.contactValue
    case "facebook" => "Facebook: " + p.contactValue
    case "other" => p.contactValue
    case _ => p.contactValue
  }

  /** The contact value is always shown in full at the end, so it can be read
      back from the formatted text. */
  lemma FormatContactKeepsValue(p: Profile)
    ensures var r := FormatContact(p);
            |r| >= |p.contactValue| && r[|r| - |p.contactValue|..] == p.contactValue
  {
  }

  /** For one contact value, the three labelled types give three different
      texts, and each differs from the bare value. */
  lemma FormatContactDistinguishesTypes(p: Profile, q: Profile)
    requires p.contactValue == q.contactValue
    requires Labelled(p.contactType)
    ensures FormatContact(p) != p.contactValue
    ensures Labelled(q.contactType) && p.contactType != q.contactType ==> FormatContact(p) != FormatContact(q)
  {
    var r := FormatContact(p);
    assert |r| > |p.contactValue|;
    if Labelled(q.contactType) && p.contactType != q.contactType {
      var s := FormatContact(q);
      var lp, lq := ContactLabel(p.contactType), ContactLabel(q.contactType);
      if |lp| == |lq| {
        assert lp[0] != lq[0];
        assert r[0] != s[0];
      } else {
        assert |r| != |s|;
      }
    }
  }
}
