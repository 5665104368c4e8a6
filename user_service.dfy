/** The user profile service: the whitelist that decides which keys of a
    profile update reach the store, and the security-question write. The
    user store is modelled as documents (key/value maps) keyed by user id;
    its update merges the given keys into a live (not deleted) document. */
module Profiles {
  import opened MeetingTypes

  /** A request body value. */
  datatype Json =
    | Null
    | Bool(b: bool)
    | Number(n: int)
    | Text(s: string)
    | Array(items: seq<Json>)
    | Object(fields: map<string, Json>)

  type Document = map<string, Json>

  datatype UserRecord = UserRecord(fields: Document, isDeleted: bool)

  /** The keys `updateProfile` lets through. */
  const AllowedProfileFields: set<string> := {"phoneNumber", "recoveryEmail", "hint"}

  /** The whitelist as a value: the update restricted to the allowed keys. */
  function Whitelisted(updateData: Document): (r: Document)
    ensures r.Keys == updateData.Keys * AllowedProfileFields
    ensures forall k :: k in r ==> r[k] == updateData[k]
  {
    map k | k in updateData && k in AllowedProfileFields :: updateData[k]
  }

  /** Filtering twice is filtering once. */
  lemma WhitelistIdempotent(updateData: Document)
    ensures Whitelisted(Whitelisted(updateData)) == Whitelisted(updateData)
  {
    assert Whitelisted(Whitelisted(updateData)).Keys == Whitelisted(updateData).Keys;
  }

  /** An update holding only allowed keys passes unchanged; any other key is
      dropped. */
  lemma WhitelistKeepsAllowed(updateData: Document)
    ensures updateData.Keys <= AllowedProfileFields ==> Whitelisted(updateData) == updateData
    ensures forall k :: k in updateData && k !in AllowedProfileFields ==> k !in Whitelisted(updateData)
  {
    if updateData.Keys <= AllowedProfileFields {
      assert Whitelisted(updateData).Keys == updateData.Keys;
    }
  }

  /** `$set`: the given keys overwrite, every other key stays. */
  function SetKeys(doc: Document, update: Document): (r: Document)
    ensures r.Keys == doc.Keys + update.Keys
    ensures forall k :: k in update ==> r[k] == update[k]
    ensures forall k :: k in doc && k !in update ==> r[k] == doc[k]
  {
    doc + update
  }

  /** The pair `updateSecurityQuestion` writes. */
  function SecurityUpdate(question: string, answer: string): (r: Document)
    ensures r.Keys == {"securityQuestion", "securityAnswer"}
    ensures r["securityQuestion"] == Text(question) && r["securityAnswer"] == Text(answer)
  {
    map["securityQuestion" := Text(question), "securityAnswer" := Text(answer)]
  }

  /** The user store: `findOneAndUpdate` on a live document with `$set`,
      returning the new document. */
  class UserRepository {
    var users: map<string, UserRecord>

    constructor ()
      ensures users == map[]
    {
      users := map[];
    }

    method Update(id: string, updateData: Document) returns (r: Option<Document>)
      modifies this
      ensures id in old(users) && !old(users)[id].isDeleted ==>
        && r == Some(SetKeys(old(users)[id].fields, updateData))
        && users == old(users)[id := UserRecord(r.value, false)]
      ensures !(id in old(users) && !old(users)[id].isDeleted) ==> r.None? && users == old(users)
    {
      if id in users && !users[id].isDeleted {
        var doc := users[id].fields + updateData;
        users := users[id := UserRecord(doc, false)];
        r := Some(doc);
      } else {
        r := None;
      }
    }
  }

  class UserService {
    const repo: UserRepository

    constructor (repo: UserRepository)
      ensures this.repo == repo
    {
      this.repo := repo;
    }

    /** The key-by-key copy of `updateProfile`: the allowed keys of the update,
        each with its value. */
    static method FilterProfileUpdate(updateData: Document) returns (filteredData: Document)
      ensures filteredData == Whitelisted(updateData)
    {
      filteredData := map[];
      var keys := updateData.Keys;
      while keys != {}
        invariant keys <= updateData.Keys
        invariant filteredData.Keys == (updateData.Keys - keys) * AllowedProfileFields
        invariant forall k :: k in filteredData ==> filteredData[k] == updateData[k]
        decreases keys
      {
        var key :| key in keys;
        if key in AllowedProfileFields {
          filteredData := filteredData[key := updateData[key]];
        }
        keys := keys - {key};
      }
    }

    /** `updateProfile`: only whitelisted keys reach the store. */
    method UpdateProfile(userId: string, updateData: Document) returns (r: Option<Document>)
      modifies repo
      ensures var before := old(repo.users);
        if userId in before && !before[userId].isDeleted then
          && r == Some(SetKeys(before[userId].fields, Whitelisted(updateData)))
          && repo.users == before[userId := UserRecord(r.value, false)]
        else r.None? && repo.users == before
    {
      var filteredData := FilterProfileUpdate(updateData);
      r := repo.Update(userId, filteredData);
    }

    /** `updateSecurityQuestion`: writes exactly the question and the answer. */
    method UpdateSecurityQuestion(userId: string, question: string, answer: string)
      modifies repo
      ensures var before := old(repo.users);
        if userId in before && !before[userId].isDeleted then
          repo.users == before[userId := UserRecord(SetKeys(before[userId].fields, SecurityUpdate(question, answer)), false)]
        else repo.users == before
    {
      var _ := repo.Update(userId, SecurityUpdate(question, answer));
    }
  }

  /** A profile update changes no key outside the whitelist. */
  lemma ProfileUpdateKeepsOtherKeys(doc: Document, updateData: Document)
    ensures forall k :: k in doc && k !in AllowedProfileFields ==>
      k in SetKeys(doc, Whitelisted(updateData)) && SetKeys(doc, Whitelisted(updateData))[k] == doc[k]
    ensures forall k :: k in SetKeys(doc, Whitelisted(updateData)) && k !in AllowedProfileFields ==> k in doc
  {
  }

  /** The security-question write changes no other key. */
  lemma SecurityUpdateKeepsOtherKeys(doc: Document, question: string, answer: string)
    ensures var r := SetKeys(doc, SecurityUpdate(question, answer));
      && r.Keys == doc.Keys + {"securityQuestion", "securityAnswer"}
      && (forall k :: k in doc && k != "securityQuestion" && k != "securityAnswer" ==> r[k] == doc[k])
  {
  }
}
