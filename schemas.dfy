/**
  The request and response records of the API and their validity constraints.
  A record arrives as a JSON object (a `Dict` here) and is validated into a
  typed value; `.dict()` turns it back into an object.
*/
module Schemas {
  import opened Wrappers

  /** A user's dating profile; all seventeen fields are required. */
  datatype UserProfile = UserProfile(
    name: string,
    age: int,
    gender: string,
    interestedIn: seq<string>,
    relationshipGoals: string,
    hobbies: seq<string>,
    personalityTraits: seq<string>,
    idealPartnerTraits: seq<string>,
    dealBreakers: seq<string>,
    loveLanguage: string,
    communicationStyle: string,
    lifeGoals: seq<string>,
    values: seq<string>,
    location: string,
    languages: seq<string>,
    education: string,
    occupation: string)

  /** The one field constraint of a profile: the age lies in [18, 99]. */
  predicate ValidProfile(p: UserProfile) {
    18 <= p.age <= 99
  }

  /** The JSON values a profile object holds. */
  datatype Json = JStr(str: string) | JInt(num: int) | JList(items: seq<string>)

  type Dict = map<string, Json>

  /** The keys of a profile object, in declaration order. */
  const ProfileFields: seq<string> := [
    "name", "age", "gender", "interested_in", "relationship_goals", "hobbies",
    "personality_traits", "ideal_partner_traits", "deal_breakers", "love_language",
    "communication_style", "life_goals", "values", "location", "languages",
    "education", "occupation"]

  /** `profile.dict()`: the profile as a JSON object keyed by its field names. */
  function ProfileToDict(p: UserProfile): Dict {
    map[
      "name" := JStr(p.name), "age" := JInt(p.age), "gender" := JStr(p.gender),
      "interested_in" := JList(p.interestedIn), "relationship_goals" := JStr(p.relationshipGoals),
      "hobbies" := JList(p.hobbies), "personality_traits" := JList(p.personalityTraits),
      "ideal_partner_traits" := JList(p.idealPartnerTraits), "deal_breakers" := JList(p.dealBreakers),
      "love_language" := JStr(p.loveLanguage), "communication_style" := JStr(p.communicationStyle),
      "life_goals" := JList(p.lifeGoals), "values" := JList(p.values), "location" := JStr(p.location),
      "languages" := JList(p.languages), "education" := JStr(p.education),
      "occupation" := JStr(p.occupation)]
  }

  lemma ToDictFirstFields(p: UserProfile)
    ensures var d := ProfileToDict(p);
      d["name"] == JStr(p.name) && d["age"] == JInt(p.age) && d["gender"] == JStr(p.gender)
  {
  }

  lemma ToDictSecondFields(p: UserProfile)
    ensures var d := ProfileToDict(p);
      d["interested_in"] == JList(p.interestedIn) && d["relationship_goals"] == JStr(p.relationshipGoals)
      && d["hobbies"] == JList(p.hobbies)
  {
  }

  lemma ToDictMiddleFields(p: UserProfile)
    ensures var d := ProfileToDict(p);
      d["personality_traits"] == JList(p.personalityTraits)
      && d["ideal_partner_traits"] == JList(p.idealPartnerTraits) && d["deal_breakers"] == JList(p.dealBreakers)
      && d["love_language"] == JStr(p.loveLanguage) && d["communication_style"] == JStr(p.communicationStyle)
      && d["life_goals"] == JList(p.lifeGoals)
  {
  }

  /** `.dict()` has a key for every field. */
  lemma ToDictKeys(p: UserProfile)
    ensures forall f :: f in ProfileFields ==> f in ProfileToDict(p)
  {
  }

  lemma ToDictLastFields(p: UserProfile)
    ensures var d := ProfileToDict(p);
      d["values"] == JList(p.values) && d["location"] == JStr(p.location)
      && d["languages"] == JList(p.languages) && d["education"] == JStr(p.education)
      && d["occupation"] == JStr(p.occupation)
  {
  }

  predicate HasStr(d: Dict, k: string) { k in d && d[k].JStr? }
  predicate HasInt(d: Dict, k: string) { k in d && d[k].JInt? }
  predicate HasList(d: Dict, k: string) { k in d && d[k].JList? }

  /** Every field is present with the type its declaration gives it. */
  predicate WellTyped(d: Dict) {
    && HasStr(d, "name") && HasInt(d, "age") && HasStr(d, "gender")
    && HasList(d, "interested_in") && HasStr(d, "relationship_goals") && HasList(d, "hobbies")
    && HasList(d, "personality_traits") && HasList(d, "ideal_partner_traits")
    && HasList(d, "deal_breakers") && HasStr(d, "love_language") && HasStr(d, "communication_style")
    && HasList(d, "life_goals") && HasList(d, "values") && HasStr(d, "location")
    && HasList(d, "languages") && HasStr(d, "education") && HasStr(d, "occupation")
  }

  /** The fields of `d` that belong to a profile; other keys are ignored on validation. */
  function ProfilePart(d: Dict): Dict {
    map k | k in d && k in ProfileFields :: d[k]
  }

  /**
    Validation of a JSON object as a `UserProfile`: it fails when a field is
    missing or has the wrong type, or when the age is outside [18, 99];
    unknown keys are ignored.
  */
  function ProfileFromDict(d: Dict): (r: Option<UserProfile>)
    ensures r.Some? <==> WellTyped(d) && 18 <= d["age"].num <= 99
    ensures r.Some? ==> ValidProfile(r.value) && ProfileToDict(r.value) == ProfilePart(d)
  {
    if WellTyped(d) && 18 <= d["age"].num <= 99 then
      var p := UserProfile(
        d["name"].str, d["age"].num, d["gender"].str, d["interested_in"].items,
        d["relationship_goals"].str, d["hobbies"].items, d["personality_traits"].items,
        d["ideal_partner_traits"].items, d["deal_breakers"].items, d["love_language"].str,
        d["communication_style"].str, d["life_goals"].items, d["values"].items,
        d["location"].str, d["languages"].items, d["education"].str, d["occupation"].str);
      assert ProfileToDict(p) == ProfilePart(d);
      Some(p)
    else
      None
  }

  /** Every field is required: an object missing any of the seventeen keys is rejected. */
  lemma FieldsRequired(d: Dict, f: string)
    requires f in ProfileFields && f !in d
    ensures ProfileFromDict(d) == None
  {
  }

  /** Serialising a profile and validating it again gives it back exactly when its age is valid. */
  lemma ProfileRoundTrip(p: UserProfile)
    ensures ProfileFromDict(ProfileToDict(p)) == if ValidProfile(p) then Some(p) else None
  {
    var d := ProfileToDict(p);
    ToDictFirstFields(p);
    ToDictSecondFields(p);
    ToDictMiddleFields(p);
    ToDictLastFields(p);
    assert WellTyped(d);
  }

  /** A message of a chat log. */
  datatype ChatMessage = ChatMessage(role: string, content: string, timestamp: int)

  /** A chat request as the client sends it. */
  datatype ChatRequest = ChatRequest(message: string, userId: string, chatMode: string)

  /** The intended chat modes: exactly "advisor" or "partner". */
  predicate ValidChatMode(m: string) {
    m == "advisor" || m == "partner"
  }

  /**
    The chat-mode constraint as written: the pattern `^(advisor|partner)$` applied
    with Python's `re.match`, whose `$` also matches just before a final newline.
  */
  predicate ChatModePatternAsWritten(m: string) {
    exists alt | alt in ["advisor", "partner"] :: m == alt || m == alt + "\n"
  }

  /** The pattern accepts "advisor\n", which is not one of the two modes. */
  lemma ChatModePatternAcceptsTrailingNewline()
    ensures ChatModePatternAsWritten("advisor\n") && !ValidChatMode("advisor\n")
  {
    assert "advisor\n" == "advisor" + "\n";
  }

  /** The two modes are what the pattern accepts once a trailing newline is excluded. */
  lemma ValidChatModeIsPatternWithoutNewline(m: string)
    ensures ValidChatMode(m) <==> ChatModePatternAsWritten(m) && (m == [] || m[|m| - 1] != '\n')
  {
    if ValidChatMode(m) {
      assert m in ["advisor", "partner"];
      assert m[|m| - 1] != '\n';
    }
    if ChatModePatternAsWritten(m) && (m == [] || m[|m| - 1] != '\n') {
      var alt :| alt in ["advisor", "partner"] && (m == alt || m == alt + "\n");
    }
  }

  /** The reply of a chat request: the assistant's answer and the whole log. */
  datatype ChatResponse = ChatResponse(message: string, chatHistory: seq<ChatMessage>)

  datatype TokenResponse = TokenResponse(accessToken: string, tokenType: string)

  /** Builds a token response; the token type is "bearer" unless given. */
  function NewTokenResponse(accessToken: string, tokenType: string := "bearer"): (r: TokenResponse)
    ensures r.accessToken == accessToken && r.tokenType == tokenType
  {
    TokenResponse(accessToken, tokenType)
  }

  lemma TokenTypeDefaultsToBearer(token: string)
    ensures NewTokenResponse(token).tokenType == "bearer"
  {
  }
}
