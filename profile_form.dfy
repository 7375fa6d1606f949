/**
  The frontend's profile form (`display_profile_form`): the values the user
  enters, the profile currently stored (the one the backend returned, if the
  fetch succeeded), and the object the form submits for the profile update.
  The widgets themselves are not modelled: their values are the input.
*/
module ProfileForm {
  import opened Wrappers
  import opened Text
  import opened Schemas

  /** What the form's widgets hold when the user presses "Save Profile", and whether they did. */
  datatype FormInput = FormInput(
    name: string,
    age: int,
    gender: string,
    interestedIn: seq<string>,
    relationshipGoals: string,
    hobbiesText: string,
    traitsText: string,
    submitted: bool)

  /** `[x.strip() for x in text.split("\n") if x.strip()]`. */
  function ParseLines(text: string): seq<string> {
    ParseList(text, '\n')
  }

  /**
    The defaults of `current_profile.get(key, default)` when there is no current
    profile; only the fields the form does not edit are read from it.
  */
  const Blank: UserProfile := UserProfile("", 18, "", [], "", [], [], [], [], "", "", [], [], "", ["English"], "", "")

  /**
    The profile the form's values describe: the edited fields from the widgets,
    hobbies and traits parsed one per line, and every other field from the
    current profile, or its default without one.
  */
  function FormProfile(input: FormInput, current: Option<UserProfile>): (r: UserProfile)
    ensures && r.name == input.name && r.age == input.age && r.gender == input.gender
      && r.interestedIn == input.interestedIn && r.relationshipGoals == input.relationshipGoals
      && r.hobbies == ParseLines(input.hobbiesText) && r.personalityTraits == ParseLines(input.traitsText)
    ensures current.None? ==>
      && r.languages == ["English"] && r.values == [] && r.dealBreakers == [] && r.lifeGoals == []
      && r.idealPartnerTraits == []
      && r.location == "" && r.education == "" && r.occupation == ""
      && r.loveLanguage == "" && r.communicationStyle == ""
    ensures current.Some? ==>
      && r.languages == current.value.languages && r.values == current.value.values
      && r.dealBreakers == current.value.dealBreakers && r.lifeGoals == current.value.lifeGoals
      && r.idealPartnerTraits == current.value.idealPartnerTraits
      && r.location == current.value.location && r.education == current.value.education
      && r.occupation == current.value.occupation && r.loveLanguage == current.value.loveLanguage
      && r.communicationStyle == current.value.communicationStyle
  {
    var c := if current.Some? then current.value else Blank;
    UserProfile(input.name, input.age, input.gender, input.interestedIn, input.relationshipGoals,
      ParseLines(input.hobbiesText), ParseLines(input.traitsText), c.idealPartnerTraits, c.dealBreakers,
      c.loveLanguage, c.communicationStyle, c.lifeGoals, c.values, c.location, c.languages,
      c.education, c.occupation)
  }

  /** The object the form returns, as written: sixteen keys, without `ideal_partner_traits`; nothing unless submitted. */
  function SubmittedProfileAsWritten(input: FormInput, current: Option<UserProfile>): (r: Option<Dict>)
    ensures r.Some? <==> input.submitted
    ensures r.Some? ==> forall f :: f in ProfileFields ==> (f in r.value <==> f != "ideal_partner_traits")
    ensures r.Some? ==> forall f :: f in r.value ==>
      f in ProfileToDict(FormProfile(input, current)) && r.value[f] == ProfileToDict(FormProfile(input, current))[f]
  {
    ToDictKeys(FormProfile(input, current));
    if input.submitted then Some(ProfileToDict(FormProfile(input, current)) - {"ideal_partner_traits"}) else None
  }

  /**
    The object the form evidently means to return: all seventeen keys, with
    `ideal_partner_traits` carried over like the other fields it does not edit.
  */
  function SubmittedProfile(input: FormInput, current: Option<UserProfile>): (r: Option<Dict>)
    ensures r.Some? <==> input.submitted
    ensures r.Some? ==> forall f :: f in ProfileFields ==> f in r.value
    ensures r.Some? ==> r.value == ProfileToDict(FormProfile(input, current))
  {
    ToDictKeys(FormProfile(input, current));
    if input.submitted then Some(ProfileToDict(FormProfile(input, current))) else None
  }

  /** Each parsed line is non-empty, stripped and a single line. */
  lemma LinesClean(text: string)
    ensures CleanEntries(ParseLines(text), '\n')
  {
    ParseListClean(text, '\n');
  }

  /** Lines keep their order: parsing two texts joined by a newline is parsing each. */
  lemma LinesConcat(a: string, b: string)
    requires '\n' !in a
    ensures ParseLines(a + "\n" + b) == ParseLines(a) + ParseLines(b)
  {
    assert a + "\n" + b == a + ['\n'] + b;
    ParseListAppend(a, b, '\n');
  }

  /** The form shows a list one entry per line; submitted unedited, it gives the same list back. */
  lemma LinesRoundTrip(xs: seq<string>)
    requires CleanEntries(xs, '\n')
    ensures ParseLines(Join(xs, "\n")) == xs
  {
    assert Glue("\n", '\n');
    ParseJoinRoundTrip(xs, "\n", '\n');
  }

  /** As written, every submitted profile is rejected by the update route's validation: `ideal_partner_traits` is missing. */
  lemma AsWrittenAlwaysRejected(input: FormInput, current: Option<UserProfile>)
    requires input.submitted
    ensures "ideal_partner_traits" !in SubmittedProfileAsWritten(input, current).value
    ensures ProfileFromDict(SubmittedProfileAsWritten(input, current).value) == None
  {
    FieldsRequired(SubmittedProfileAsWritten(input, current).value, "ideal_partner_traits");
  }

  /**
    With the missing key carried over, a submission validates exactly when the
    age is in range, into the profile the form's values describe.
  */
  lemma CorrectedValidates(input: FormInput, current: Option<UserProfile>)
    requires input.submitted
    ensures ProfileFromDict(SubmittedProfile(input, current).value)
      == if 18 <= input.age <= 99 then Some(FormProfile(input, current)) else None
  {
    ProfileRoundTrip(FormProfile(input, current));
  }

  /** The form as it opens on a stored profile: its fields, hobbies and traits one per line. */
  function Displayed(p: UserProfile): FormInput {
    FormInput(p.name, p.age, p.gender, p.interestedIn, p.relationshipGoals,
      Join(p.hobbies, "\n"), Join(p.personalityTraits, "\n"), true)
  }

  /**
    Opening the form on a stored valid profile and saving it without edits
    gives back that profile, when its hobbies and traits are clean lines.
  */
  lemma UneditedFormKeepsProfile(p: UserProfile)
    requires ValidProfile(p)
    requires CleanEntries(p.hobbies, '\n') && CleanEntries(p.personalityTraits, '\n')
    ensures ProfileFromDict(SubmittedProfile(Displayed(p), Some(p)).value) == Some(p)
  {
    LinesRoundTrip(p.hobbies);
    LinesRoundTrip(p.personalityTraits);
    CorrectedValidates(Displayed(p), Some(p));
  }
}
