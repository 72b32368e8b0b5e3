/** The profile store: a collection with a unique index on `phoneNumber`, so at most
    one profile per phone number, taken here as a map from phone number to profile.
    The clock is the `now` parameter. */
module Profiles {
  import opened Results
  import opened Models

  type Collection = map<string, Profile>

  const PhoneRequired := "phoneNumber is required"

  function NotFound(phoneNumber: string): string {
    "profile not found for phone number: " + phoneNumber
  }

  function AlreadyExists(phoneNumber: string): string {
    "profile already exists for phone number: " + phoneNumber
  }

  /** Every profile sits under its own phone number, and no profile has an empty one. */
  predicate Valid(c: Collection) {
    && "" !in c
    && forall k :: k in c ==> c[k].phoneNumber == k
  }

  /** The result of an operation that may change the collection. */
  datatype Step = Step(collection: Collection, reply: Reply<Profile>)

  /** Looks a profile up by phone number. */
  function GetProfile(c: Collection, phoneNumber: string): (r: Reply<Profile>)
    ensures r.Ok? <==> phoneNumber in c
    ensures r.Ok? ==> r.value == c[phoneNumber]
    ensures r.Err? ==> r.msg == NotFound(phoneNumber)
  {
    if phoneNumber in c then Ok(c[phoneNumber]) else Err(NotFound(phoneNumber))
  }

  /** Replaces name and avatar of the profile stored under `phoneNumber`, stamps
      `updatedAt`, and returns the document as it is after the update. The phone
      number in `profile` is ignored in favour of the argument. */
  function UpdateProfile(c: Collection, phoneNumber: string, profile: Profile, now: int): (r: Step)
    ensures phoneNumber !in c <==> r.reply.Err?
    ensures phoneNumber !in c ==> r == Step(c, Err(NotFound(phoneNumber)))
    ensures phoneNumber in c ==>
      && r.reply.Ok?
      && r.collection.Keys == c.Keys
      && r.collection[phoneNumber] == r.reply.value
      && r.reply.value.name == profile.name
      && r.reply.value.avatar == profile.avatar
      && r.reply.value.updatedAt == now
      && r.reply.value.phoneNumber == c[phoneNumber].phoneNumber
      && r.reply.value.createdAt == c[phoneNumber].createdAt
    ensures Valid(c) && phoneNumber in c ==> r.reply.value.phoneNumber == phoneNumber
    ensures forall k :: k != phoneNumber && k in c ==> k in r.collection && r.collection[k] == c[k]
    ensures Valid(c) ==> Valid(r.collection)
  {
    if phoneNumber !in c then
      Step(c, Err(NotFound(phoneNumber)))
    else
      var existing := c[phoneNumber];
      var updated := existing.(name := profile.name, avatar := profile.avatar, updatedAt := now);
      Step(c[phoneNumber := updated], Ok(updated))
  }

  /** Inserts a new profile stamped with `now` for both timestamps; a missing phone
      number or one already present is refused and the collection left unchanged. */
  function CreateProfile(c: Collection, profile: Profile, now: int): (r: Step)
    ensures profile.phoneNumber == "" ==> r == Step(c, Err(PhoneRequired))
    ensures profile.phoneNumber != "" && profile.phoneNumber in c ==> r == Step(c, Err(AlreadyExists(profile.phoneNumber)))
    ensures r.reply.Ok? <==> profile.phoneNumber != "" && profile.phoneNumber !in c
    ensures r.reply.Ok? ==>
      && r.reply.value == profile.(createdAt := now, updatedAt := now)
      && r.collection.Keys == c.Keys + {profile.phoneNumber}
      && r.collection[profile.phoneNumber] == r.reply.value
    ensures forall k :: k != profile.phoneNumber ==> (k in r.collection <==> k in c)
    ensures forall k :: k != profile.phoneNumber && k in c ==> r.collection[k] == c[k]
    ensures Valid(c) ==> Valid(r.collection)
  {
    if profile.phoneNumber == "" then
      Step(c, Err(PhoneRequired))
    else if profile.phoneNumber in c then
      Step(c, Err(AlreadyExists(profile.phoneNumber)))
    else
      var created := profile.(createdAt := now, updatedAt := now);
      Step(c[profile.phoneNumber := created], Ok(created))
  }

  /** A profile just created is what a lookup of its phone number returns. */
  lemma CreateThenGet(c: Collection, profile: Profile, now: int)
    requires CreateProfile(c, profile, now).reply.Ok?
    ensures GetProfile(CreateProfile(c, profile, now).collection, profile.phoneNumber)
         == CreateProfile(c, profile, now).reply
  {
  }

  /** Creating a second profile under a phone number in use fails whatever the
      second profile holds, and does not disturb the first. */
  lemma CreateTwiceConflicts(c: Collection, p: Profile, q: Profile, now: int, later: int)
    requires CreateProfile(c, p, now).reply.Ok?
    requires q.phoneNumber == p.phoneNumber
    ensures var c' := CreateProfile(c, p, now).collection;
      CreateProfile(c', q, later) == Step(c', Err(AlreadyExists(p.phoneNumber)))
  {
  }

  /** A lookup after an update returns the update's result, and keeps the creation
      time the profile had before. */
  lemma UpdateThenGet(c: Collection, phoneNumber: string, profile: Profile, now: int)
    requires phoneNumber in c
    ensures var s := UpdateProfile(c, phoneNumber, profile, now);
      && GetProfile(s.collection, phoneNumber) == s.reply
      && s.reply.value.createdAt == GetProfile(c, phoneNumber).value.createdAt
  {
  }
}
