/** `ProviderCard`: what a provider's card shows, as a value computed from
    the provider record. */
module ProviderCard {
  import opened Options
  import opened Text

  /** A provider as the search endpoint returns it; the optional fields may
      be missing. */
  datatype Provider = Provider(
    id: nat,
    name: string,
    providerType: string,
    address: Option<string>,
    city: string,
    state: string,
    phone: Option<string>,
    website: Option<string>,
    verified: Option<bool>,
    acceptingNewClients: Option<bool>,
    specialties: Option<seq<string>>)

  /** The display names of the known provider types. */
  const TypeLabels: map<string, string> := map[
    "aba_therapy" := "ABA Therapy",
    "speech_therapy" := "Speech Therapy",
    "occupational_therapy" := "Occupational Therapy",
    "developmental_pediatrician" := "Developmental Pediatrician",
    "neuropsychologist" := "Neuropsychologist",
    "iep_advocate" := "IEP Advocate",
    "special_ed_attorney" := "Special Ed Attorney"]

  /** The type badge: the display name of a known type, the raw type
      otherwise. */
  function TypeLabel(providerType: string): (r: string)
    ensures providerType in TypeLabels ==> r == TypeLabels[providerType]
    ensures providerType !in TypeLabels ==> r == providerType
  {
    if providerType in TypeLabels then TypeLabels[providerType] else providerType
  }

  /** Most specialties shown on a card. */
  const MaxShownSpecialties: nat := 3

  /** `specialties.slice(0, 3)`: the first three, in order. */
  function ShownSpecialties(specialties: seq<string>): (r: seq<string>)
    ensures |r| <= MaxShownSpecialties
    ensures |r| == if |specialties| < MaxShownSpecialties then |specialties| else MaxShownSpecialties
    ensures r == specialties[..|r|]
  {
    if |specialties| <= MaxShownSpecialties then specialties else specialties[..MaxShownSpecialties]
  }

  /** How many specialties the card leaves out; together with the shown ones
      they make up the whole list. */
  function HiddenCount(specialties: seq<string>): (n: nat)
    ensures |ShownSpecialties(specialties)| + n == |specialties|
    ensures ShownSpecialties(specialties) + specialties[|specialties| - n..] == specialties
    ensures n > 0 <==> |specialties| > MaxShownSpecialties
  {
    if |specialties| > MaxShownSpecialties then |specialties| - MaxShownSpecialties else 0
  }

  /** The "+N more" note, present iff specialties were left out. */
  function MoreNote(specialties: seq<string>): (r: Option<string>)
    ensures r.Some? <==> |specialties| > MaxShownSpecialties
    ensures r.Some? ==> r.value == "+" + NatToString(HiddenCount(specialties)) + " more"
  {
    if |specialties| > MaxShownSpecialties then Some("+" + NatToString(|specialties| - MaxShownSpecialties) + " more")
    else None
  }

  const ProfilePrefix := "/provider/"

  /** The link to a provider's profile; the id can be read back from it, so
      different providers get different links. */
  function ProfileHref(id: nat): (r: string)
    ensures StartsWith(r, ProfilePrefix)
    ensures r[|ProfilePrefix|..] == NatToString(id)
    ensures forall i :: |ProfilePrefix| <= i < |r| ==> IsDigit(r[i])
    ensures ParseDecimal(r[|ProfilePrefix|..]) == id
  {
    var digits := NatToString(id);
    var r := ProfilePrefix + digits;
    assert r[|ProfilePrefix|..] == digits;
    ParseNatToString(id);
    r
  }

  datatype SpecialtiesView = SpecialtiesView(shown: seq<string>, more: Option<string>)

  /** Everything on a card that depends on the provider. */
  datatype CardView = CardView(
    profileHref: string,
    name: string,
    typeLabel: string,
    verifiedBadge: bool,
    acceptingBadge: bool,
    location: string,
    specialties: Option<SpecialtiesView>,
    phoneButton: Option<string>,
    websiteButton: Option<string>)

  /** A field rendered only when present and truthy (a non-empty string). */
  function Truthy(field: Option<string>): Option<string> {
    if field.Some? && field.value != "" then field else None
  }

  /** The card of a provider: the badges only when their flags are true, the
      specialties block only for a non-empty list, the phone and website
      buttons only for non-empty fields, both links to the profile. */
  function View(p: Provider): (v: CardView)
    ensures v.profileHref == ProfileHref(p.id)
    ensures v.typeLabel == TypeLabel(p.providerType)
    ensures v.verifiedBadge <==> p.verified == Some(true)
    ensures v.acceptingBadge <==> p.acceptingNewClients == Some(true)
    ensures v.specialties.Some? <==> p.specialties.Some? && |p.specialties.value| > 0
    ensures v.specialties.Some? ==>
      v.specialties.value == SpecialtiesView(ShownSpecialties(p.specialties.value), MoreNote(p.specialties.value))
    ensures v.phoneButton.Some? <==> p.phone.Some? && p.phone.value != ""
    ensures v.phoneButton.Some? ==> v.phoneButton == p.phone
    ensures v.websiteButton.Some? <==> p.website.Some? && p.website.value != ""
    ensures v.websiteButton.Some? ==> v.websiteButton == p.website
  {
    CardView(
      ProfileHref(p.id),
      p.name,
      TypeLabel(p.providerType),
      p.verified == Some(true),
      p.acceptingNewClients == Some(true),
      p.city + ", " + p.state,
      if p.specialties.Some? && |p.specialties.value| > 0
        then Some(SpecialtiesView(ShownSpecialties(p.specialties.value), MoreNote(p.specialties.value)))
        else None,
      Truthy(p.phone),
      Truthy(p.website))
  }
}
