/** The Bootcamp model: its validators and defaults, the two pre-save hooks
    (slug, then geocoded location replacing the address), the pre-remove
    cascade over the courses, and the `courses` virtual. The URL and email
    patterns, `slugify` and the geocoder are parameters. */
module BootcampModel {
  import opened Common
  import opened Strings
  import opened ErrorHandler
  import opened Schema
  import opened Messages
  import opened CourseModel

  const Careers := ["Web Development", "Mobile Development", "UI/UX", "Data Science", "Business", "Other"]

  const NameRequired := "Please add a name"
  const NameTooLong := "Name can not be more than 50 characters"
  const DescriptionRequired := "Please add a description"
  const DescriptionTooLong := "Description can not be more than 500 characters"
  const BadWebsite := "Please use a valid URL with HTTP or HTTPS"
  const PhoneTooLong := "Phone number can not be longer than 20 characters"
  const BadEmail := "Please add a valid email"
  const AddressRequired := "Please add an address"
  const RatingTooLow := "Rating must be at least 1"
  const RatingTooHigh := "Rating must can not be more than 10"
  const NoPhoto := "no-photo.jpg"

  const NameMax := 50
  const DescriptionMax := 500
  const PhoneMax := 20
  /** `averageRating` is kept in hundredths: 1 .. 10 is 100 .. 1000. */
  const RatingLow := 100
  const RatingHigh := 1000

  /** A GeoJSON point with the geocoder's address parts. */
  datatype Location = Location(
    kind: string,
    coordinates: seq<real>,
    formattedAddress: string,
    street: string,
    city: string,
    state: string,
    zipcode: string,
    country: string)

  /** One entry of the geocoder's answer. */
  datatype GeoEntry = GeoEntry(
    latitude: real,
    longitude: real,
    formattedAddress: string,
    streetName: string,
    city: string,
    stateCode: string,
    zipcode: string,
    countryCode: string)

  datatype Bootcamp = Bootcamp(
    id: Id,
    name: string,
    slug: Option<string>,
    description: string,
    website: Option<string>,
    phone: Option<string>,
    email: Option<string>,
    address: Option<string>,
    location: Option<Location>,
    careers: seq<string>,
    averageRating: Option<int>,
    averageCost: Option<int>,
    photo: string,
    housing: bool,
    jobAssistance: bool,
    jobGuarantee: bool,
    acceptGi: bool,
    createdAt: int,
    user: Option<Id>)

  datatype BootcampBody = BootcampBody(
    name: Option<string>,
    description: Option<string>,
    website: Option<string>,
    phone: Option<string>,
    email: Option<string>,
    address: Option<string>,
    careers: Option<seq<string>>,
    averageRating: Option<int>,
    averageCost: Option<int>,
    photo: Option<string>,
    housing: Option<bool>,
    jobAssistance: Option<bool>,
    jobGuarantee: Option<bool>,
    acceptGi: Option<bool>,
    user: Option<Id>)

  /** The website and email regular expressions. */
  datatype Matchers = Matchers(url: string -> bool, email: string -> bool)

  /** What the validators accept, field by field. */
  predicate Acceptable(b: BootcampBody, m: Matchers) {
    b.name.Some? && Trim(b.name.value) != "" && |Trim(b.name.value)| <= NameMax
    && b.description.Some? && b.description.value != "" && |b.description.value| <= DescriptionMax
    && (b.website.Some? && b.website.value != "" ==> m.url(b.website.value))
    && (b.phone.Some? ==> |b.phone.value| <= PhoneMax)
    && (b.email.Some? && b.email.value != "" ==> m.email(b.email.value))
    && b.address.Some? && b.address.value != ""
    && (forall k :: 0 <= k < |CareersGiven(b.careers)| ==> CareersGiven(b.careers)[k] in Careers)
    && (b.averageRating.Some? ==> RatingLow <= b.averageRating.value <= RatingHigh)
  }

  /** The first career outside the list, if any. */
  function FirstForeign(careers: seq<string>): (r: Option<nat>)
    ensures r.None? <==> forall k :: 0 <= k < |careers| ==> careers[k] in Careers
    ensures r.Some? ==> r.value < |careers| && careers[r.value] !in Careers
  {
    if |careers| == 0 then None
    else if careers[0] !in Careers then Some(0)
    else match FirstForeign(careers[1..])
      case None => None
      case Some(k) => Some(k + 1)
  }

  /** The list the document holds: an array path the body leaves out
      defaults to the empty array. */
  function CareersGiven(careers: Option<seq<string>>): (r: seq<string>)
    ensures careers.None? ==> r == []
    ensures careers.Some? ==> r == careers.value
  {
    if careers.Some? then careers.value else []
  }

  /** The `careers` check. `required` on an array only asks for an array,
      and the defaulted empty array is one, so it never fails; every entry
      is then checked against the list and the first foreign entry is
      reported. */
  function CareersErrors(careers: Option<seq<string>>): (r: seq<FieldError>)
    ensures r == [] <==> forall k :: 0 <= k < |CareersGiven(careers)| ==> CareersGiven(careers)[k] in Careers
    ensures r != [] ==> exists k :: (0 <= k < |CareersGiven(careers)| && CareersGiven(careers)[k] !in Careers
      && r == [FieldError("careers", EnumDefault("careers", CareersGiven(careers)[k]))])
  {
    match FirstForeign(CareersGiven(careers))
    case None => []
    case Some(k) => [FieldError("careers", EnumDefault("careers", CareersGiven(careers)[k]))]
  }

  /** The field errors of a body, in schema order. */
  function BootcampErrors(b: BootcampBody, m: Matchers): (r: seq<FieldError>)
    ensures r == [] <==> Acceptable(b, m)
  {
    StringField("name", Trimmed(b.name), true, true, Given(NameRequired), Some((NameMax, Given(NameTooLong))))
    + StringField("description", b.description, true, true, Given(DescriptionRequired), Some((DescriptionMax, Given(DescriptionTooLong))))
    + MatchField("website", b.website, m.url, Given(BadWebsite))
    + StringField("phone", b.phone, true, false, Given(""), Some((PhoneMax, Given(PhoneTooLong))))
    + MatchField("email", b.email, m.email, Given(BadEmail))
    + StringField("address", b.address, true, true, Given(AddressRequired), None)
    + CareersErrors(b.careers)
    + NumberField("averageRating", b.averageRating, true, false, Given(""), Some((RatingLow, Given(RatingTooLow))), Some((RatingHigh, Given(RatingTooHigh))))
  }

  /** The field rules every stored bootcamp satisfies. */
  predicate BootcampValid(b: Bootcamp, m: Matchers) {
    b.name != "" && Trim(b.name) == b.name && |b.name| <= NameMax
    && b.description != "" && |b.description| <= DescriptionMax
    && (b.website.Some? && b.website.value != "" ==> m.url(b.website.value))
    && (b.phone.Some? ==> |b.phone.value| <= PhoneMax)
    && (b.email.Some? && b.email.value != "" ==> m.email(b.email.value))
    && (forall k :: 0 <= k < |b.careers| ==> b.careers[k] in Careers)
    && (b.averageRating.Some? ==> RatingLow <= b.averageRating.value <= RatingHigh)
  }

  /** The validated document `Bootcamp.create(body)` builds before its
      pre-save hooks run, or the validation error. */
  function NewBootcamp(b: BootcampBody, m: Matchers, id: Id, now: int): (r: Result<Bootcamp, Err>)
    ensures r.Failure? <==> !Acceptable(b, m)
    ensures r.Failure? ==> r.error == ValidationError("Bootcamp", BootcampErrors(b, m))
    ensures r.Success? ==> BootcampValid(r.value, m) && r.value == Filled(b, m, id, now)
  {
    var errors := BootcampErrors(b, m);
    if errors != [] then Failure(ValidationError("Bootcamp", errors))
    else Success(Filled(b, m, id, now))
  }

  /** An accepted body as a document: the name trimmed, the defaults
      filled in (photo 'no-photo.jpg', the four flags false, `createdAt`
      now); no slug or location yet. */
  function Filled(b: BootcampBody, m: Matchers, id: Id, now: int): (r: Bootcamp)
    requires Acceptable(b, m)
    ensures BootcampValid(r, m)
    ensures r.id == id && r.createdAt == now && r.name == Trim(b.name.value)
      && r.slug.None? && r.location.None? && r.address == b.address
      && r.photo == (if b.photo.Some? then b.photo.value else NoPhoto)
      && r.housing == (b.housing == Some(true))
      && r.jobAssistance == (b.jobAssistance == Some(true))
      && r.jobGuarantee == (b.jobGuarantee == Some(true))
      && r.acceptGi == (b.acceptGi == Some(true))
      && r.careers == CareersGiven(b.careers) && r.averageRating == b.averageRating
    ensures r.description == b.description.value && r.website == b.website
      && r.phone == b.phone && r.email == b.email
      && r.averageCost == b.averageCost && r.user == b.user
  {
    TrimIdempotent(b.name.value);
    Bootcamp(id, Trim(b.name.value), None, b.description.value, b.website, b.phone, b.email,
      b.address, None, CareersGiven(b.careers), b.averageRating, b.averageCost, Get(b.photo, NoPhoto),
      b.housing == Some(true), b.jobAssistance == Some(true), b.jobGuarantee == Some(true), b.acceptGi == Some(true),
      now, b.user)
  }

  /** A body that leaves `careers` out, or sends an empty list, passes that
      path, and an accepted one is stored with no careers. */
  lemma CareersOptional(b: BootcampBody, m: Matchers, id: Id, now: int)
    requires b.careers.None? || b.careers == Some([])
    ensures CareersErrors(b.careers) == []
    ensures Acceptable(b, m) ==> NewBootcamp(b, m, id, now).Success? && NewBootcamp(b, m, id, now).value.careers == []
  {
  }

  /** The location built from a geocoder entry: a GeoJSON point, so the
      coordinates are longitude first, then latitude. */
  function LocationOf(e: GeoEntry): (l: Location)
    ensures l.kind == "Point" && |l.coordinates| == 2
    ensures l.coordinates[0] == e.longitude && l.coordinates[1] == e.latitude
    ensures l.street == e.streetName && l.state == e.stateCode && l.country == e.countryCode
    ensures l.formattedAddress == e.formattedAddress && l.city == e.city && l.zipcode == e.zipcode
  {
    Location("Point", [e.longitude, e.latitude], e.formattedAddress, e.streetName, e.city,
      e.stateCode, e.zipcode, e.countryCode)
  }

  /** Reading `loc[0].longitude` on an empty geocoder answer. */
  const NoGeoResult := TypeError("Cannot read properties of undefined (reading 'longitude')")

  /** The document after both pre-save hooks, given the first geocoder
      entry: slug from the name, location from the entry, address cleared. */
  function Saved(b: Bootcamp, slugify: string -> string, e: GeoEntry): (r: Bootcamp)
    ensures r.slug == Some(slugify(b.name)) && r.location == Some(LocationOf(e)) && r.address.None?
    ensures r.id == b.id && r.name == b.name
    ensures r.(slug := b.slug, location := b.location, address := b.address) == b
  {
    b.(slug := Some(slugify(b.name)), location := Some(LocationOf(e)), address := None)
  }

  /** A bootcamp document going through `save()`. */
  class BootcampDocument {
    var record: Bootcamp

    constructor (record: Bootcamp)
      ensures this.record == record
    {
      this.record := record;
    }

    /** The two pre-save hooks, in order: the slug from the name, then the
        location from the first geocoder entry for the address, which is
        then cleared. An empty answer makes the second hook throw after
        the slug is set. */
    method PreSave(slugify: string -> string, geocode: Option<string> -> seq<GeoEntry>) returns (err: Option<Err>)
      modifies this
      ensures geocode(old(record).address) == [] ==>
        err == Some(NoGeoResult) && record == old(record).(slug := Some(slugify(old(record).name)))
      ensures geocode(old(record).address) != [] ==>
        err.None? && record == Saved(old(record), slugify, geocode(old(record).address)[0])
    {
      record := record.(slug := Some(slugify(record.name)));
      var loc := geocode(record.address);
      if loc == [] {
        return Some(NoGeoResult);
      }
      record := record.(location := Some(LocationOf(loc[0])));
      record := record.(address := None);
      err := None;
    }
  }

  /** The hooks change no validated field: a valid bootcamp stays valid. */
  lemma SavedKeepsValid(b: Bootcamp, m: Matchers, slugify: string -> string, e: GeoEntry)
    requires BootcampValid(b, m)
    ensures BootcampValid(Saved(b, slugify, e), m)
  {
  }

  /** The `courses` virtual: the courses whose `bootcamp` is this id, in
      stored order (the same match as `CoursesOf`). */
  function CoursesVirtual(b: Bootcamp, cs: seq<Course>): (r: seq<Course>)
    ensures forall c :: c in r <==> c in cs && c.bootcamp == b.id
    ensures (forall k :: 0 <= k < |cs| ==> cs[k].bootcamp == b.id) ==> r == cs
    ensures (forall k :: 0 <= k < |cs| ==> cs[k].bootcamp != b.id) ==> r == []
  {
    CoursesOfAll(cs, b.id);
    CoursesOfNone(cs, b.id);
    CoursesOf(cs, b.id)
  }
}
