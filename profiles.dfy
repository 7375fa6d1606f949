/**
  The in-memory profile store shared by the profile and matches routes: a
  dictionary from user id to profile. Each route first checks that the caller's
  authenticated id is the id in the path. The store remembers the order in
  which keys were first inserted, which is the order a Python dict iterates in.
*/
module Profiles {
  import opened Wrappers
  import opened Seqs
  import opened Errors
  import opened Schemas

  function NotFound(userId: string): ApiError {
    ProfileException("Profile not found for user " + userId)
  }

  /** GET: the stored profile of the caller. */
  function Get(profiles: map<string, UserProfile>, userId: string, authUserId: string): (r: Result<UserProfile, ApiError>)
    ensures userId != authUserId ==> r == Failure(ProfileException("You can only access your own profile"))
    ensures userId == authUserId && userId !in profiles ==> r == Failure(NotFound(userId))
    ensures r.Success? <==> userId == authUserId && userId in profiles
    ensures r.Success? ==> r.value == profiles[userId]
  {
    if userId != authUserId then Failure(ProfileException("You can only access your own profile"))
    else if userId !in profiles then Failure(NotFound(userId))
    else Success(profiles[userId])
  }

  /** PUT: the store after a full overwrite of the caller's profile (unchanged when the ids differ). */
  function Put(profiles: map<string, UserProfile>, userId: string, authUserId: string, profile: UserProfile): map<string, UserProfile> {
    if userId != authUserId then profiles else profiles[userId := profile]
  }

  /** PUT: the reply; the stored profile itself on success. */
  function PutReply(userId: string, authUserId: string, profile: UserProfile): (r: Result<UserProfile, ApiError>)
    ensures r.Success? <==> userId == authUserId
    ensures r.Success? ==> r.value == profile
    ensures r.Failure? ==> r.error == ProfileException("You can only update your own profile")
  {
    if userId != authUserId then Failure(ProfileException("You can only update your own profile"))
    else Success(profile)
  }

  /** DELETE: the reply, which names the two error cases. */
  function DeleteReply(profiles: map<string, UserProfile>, userId: string, authUserId: string): (r: Result<string, ApiError>)
    ensures userId != authUserId ==> r == Failure(ProfileException("You can only delete your own profile"))
    ensures userId == authUserId && userId !in profiles ==> r == Failure(NotFound(userId))
    ensures r.Success? <==> userId == authUserId && userId in profiles
    ensures r.Success? ==> r.value == "Profile deleted successfully"
  {
    if userId != authUserId then Failure(ProfileException("You can only delete your own profile"))
    else if userId !in profiles then Failure(NotFound(userId))
    else Success("Profile deleted successfully")
  }

  /** DELETE: the store afterwards; only a successful delete removes a key. */
  function Delete(profiles: map<string, UserProfile>, userId: string, authUserId: string): map<string, UserProfile> {
    if DeleteReply(profiles, userId, authUserId).Success? then profiles - {userId} else profiles
  }

  /** A put followed by a get of the same id returns exactly the stored profile. */
  lemma PutThenGet(profiles: map<string, UserProfile>, userId: string, profile: UserProfile)
    ensures PutReply(userId, userId, profile) == Success(profile)
    ensures Get(Put(profiles, userId, userId, profile), userId, userId) == Success(profile)
  {
  }

  /** A put overwrites one key and no other; a rejected put changes nothing. */
  lemma PutFrame(profiles: map<string, UserProfile>, userId: string, authUserId: string, profile: UserProfile, other: string)
    requires other != userId
    ensures Put(profiles, userId, authUserId, profile).Keys == if userId == authUserId then profiles.Keys + {userId} else profiles.Keys
    ensures other in profiles <==> other in Put(profiles, userId, authUserId, profile)
    ensures other in profiles ==> Put(profiles, userId, authUserId, profile)[other] == profiles[other]
    ensures PutReply(userId, authUserId, profile).Failure? ==> Put(profiles, userId, authUserId, profile) == profiles
  {
  }

  /** After a successful delete the profile is gone: a get reports it not found, other keys are kept. */
  lemma DeleteThenGet(profiles: map<string, UserProfile>, userId: string, other: string)
    requires DeleteReply(profiles, userId, userId).Success?
    requires other != userId
    ensures Get(Delete(profiles, userId, userId), userId, userId) == Failure(NotFound(userId))
    ensures other in profiles <==> other in Delete(profiles, userId, userId)
    ensures other in profiles ==> Delete(profiles, userId, userId)[other] == profiles[other]
  {
  }

  /** A rejected delete (wrong caller or missing id) mutates nothing. */
  lemma FailedDeleteKeepsStore(profiles: map<string, UserProfile>, userId: string, authUserId: string)
    requires DeleteReply(profiles, userId, authUserId).Failure?
    ensures Delete(profiles, userId, authUserId) == profiles
  {
  }

  /** The iteration order of the dict after a put: a new key goes to the end, an existing key keeps its place. */
  function PutOrder(order: seq<string>, profiles: map<string, UserProfile>, userId: string, authUserId: string): seq<string> {
    if userId != authUserId || userId in profiles then order else order + [userId]
  }

  /** The iteration order after a delete: the removed key drops out. */
  function DeleteOrder(order: seq<string>, profiles: map<string, UserProfile>, userId: string, authUserId: string): seq<string> {
    if DeleteReply(profiles, userId, authUserId).Success? then Without(order, userId) else order
  }

  /** The order lists every key exactly once. */
  ghost predicate OrderMatches(order: seq<string>, profiles: map<string, UserProfile>) {
    NoDuplicates(order) && (forall k :: k in order <==> k in profiles)
  }

  /** Put and delete keep the order in step with the keys. */
  lemma OrderPreserved(order: seq<string>, profiles: map<string, UserProfile>, userId: string, authUserId: string, profile: UserProfile)
    requires OrderMatches(order, profiles)
    ensures OrderMatches(PutOrder(order, profiles, userId, authUserId), Put(profiles, userId, authUserId, profile))
    ensures OrderMatches(DeleteOrder(order, profiles, userId, authUserId), Delete(profiles, userId, authUserId))
  {
    WithoutKeepsNoDuplicates(order, userId);
  }

  /** The module-level `profiles` dict. */
  class ProfileStore {
    var profiles: map<string, UserProfile>
    /** The keys in dict iteration order. */
    var order: seq<string>

    ghost predicate Valid()
      reads this
    {
      OrderMatches(order, profiles)
    }

    constructor ()
      ensures Valid() && profiles == map[] && order == []
    {
      profiles := map[];
      order := [];
    }

    method GetProfile(userId: string, authUserId: string) returns (r: Result<UserProfile, ApiError>)
      ensures r == Get(profiles, userId, authUserId)
    {
      if userId != authUserId {
        return Failure(ProfileException("You can only access your own profile"));
      }
      if userId !in profiles {
        return Failure(NotFound(userId));
      }
      return Success(profiles[userId]);
    }

    method UpdateProfile(userId: string, authUserId: string, profile: UserProfile) returns (r: Result<UserProfile, ApiError>)
      requires Valid()
      modifies this
      ensures Valid()
      ensures r == PutReply(userId, authUserId, profile)
      ensures profiles == Put(old(profiles), userId, authUserId, profile)
      ensures order == PutOrder(old(order), old(profiles), userId, authUserId)
    {
      if userId != authUserId {
        return Failure(ProfileException("You can only update your own profile"));
      }
      if userId !in profiles {
        order := order + [userId];
      }
      profiles := profiles[userId := profile];
      OrderPreserved(old(order), old(profiles), userId, authUserId, profile);
      return Success(profile);
    }

    method DeleteProfile(userId: string, authUserId: string) returns (r: Result<string, ApiError>)
      requires Valid()
      modifies this
      ensures Valid()
      ensures r == DeleteReply(old(profiles), userId, authUserId)
      ensures profiles == Delete(old(profiles), userId, authUserId)
      ensures order == DeleteOrder(old(order), old(profiles), userId, authUserId)
    {
      if userId != authUserId {
        return Failure(ProfileException("You can only delete your own profile"));
      }
      if userId !in profiles {
        return Failure(NotFound(userId));
      }
      OrderPreserved(order, profiles, userId, authUserId, profiles[userId]);
      profiles := profiles - {userId};
      order := Without(order, userId);
      return Success("Profile deleted successfully");
    }
  }
}
