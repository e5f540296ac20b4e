/** The MailerLite client singleton and the group-id resolution with its
    write-once cache. The SDK's network calls are outcomes given as inputs. */
module MailerLite {
  import opened Js

  const ApiKeyVar := "MAILERLITE_API_KEY"
  const GroupIdVar := "MAILERLITE_GROUP_ID"

  /** A MailerLite SDK client; only the key it was built with is modelled. */
  class Client {
    const apiKey: string

    constructor (apiKey: string)
      ensures this.apiKey == apiKey
    {
      this.apiKey := apiKey;
    }
  }

  datatype Group = Group(id: string, name: string)

  /** What `client.groups.get({ limit: 1, sort: "name" })` gave: the list at
      `response.data?.data` (absent when the payload has none), or a thrown error. */
  datatype GroupsReply = GroupsThrew | GroupsListed(groups: Option<seq<Group>>)

  /** The id `getGroupId` returns and the value of `cachedGroupId` afterwards. */
  datatype Resolution = Resolution(groupId: Option<string>, cache: Option<string>)

  /** The decision `getGroupId` makes, given the configured id, the cache,
      whether a client can be obtained, and the reply of the groups call
      (consulted only when the call is made). */
  function ResolveGroup(configured: Option<string>, cached: Option<string>, hasClient: bool,
                        reply: GroupsReply): (r: Resolution)
    // a configured id wins over the cache and any fetch
    ensures Truthy(configured) ==> r == Resolution(configured, cached)
    // otherwise a cached id is returned without fetching
    ensures !Truthy(configured) && Truthy(cached) ==> r == Resolution(cached, cached)
    // with no client there is no id and the cache stays
    ensures !Truthy(configured) && !Truthy(cached) && !hasClient ==> r == Resolution(None, cached)
    // the cache only changes when the fetch lists a group, and then to the first one's id
    ensures r.cache != cached ==>
      && !Truthy(configured) && !Truthy(cached) && hasClient
      && reply.GroupsListed? && reply.groups.Some? && |reply.groups.value| > 0
      && r.cache == r.groupId == Some(reply.groups.value[0].id)
    // a fetch that fails or lists nothing yields no id
    ensures (!Truthy(configured) && !Truthy(cached)
             && (reply.GroupsThrew? || reply.groups.None? || reply.groups.value == []))
            ==> r == Resolution(None, cached)
    // otherwise a client and a non-empty listing give the first group's id, which is cached
    ensures (!Truthy(configured) && !Truthy(cached) && hasClient
             && reply.GroupsListed? && reply.groups.Some? && |reply.groups.value| > 0)
            ==> r == Resolution(Some(reply.groups.value[0].id), Some(reply.groups.value[0].id))
    // a cache holding an id is never overwritten
    ensures Truthy(cached) ==> r.cache == cached
  {
    if Truthy(configured) then
      Resolution(configured, cached)
    else if Truthy(cached) then
      Resolution(cached, cached)
    else if !hasClient then
      Resolution(None, cached)
    else
      match reply
      case GroupsListed(Some(groups)) =>
        if |groups| > 0 then Resolution(Some(groups[0].id), Some(groups[0].id))
        else Resolution(None, cached)
      case _ => Resolution(None, cached)
  }

  /** The module-level `mailerliteClient` and `cachedGroupId`. */
  class MailerLiteState {
    var client: Client?
    var cachedGroupId: Option<string>

    constructor ()
      ensures client == null && cachedGroupId == None
    {
      client := null;
      cachedGroupId := None;
    }

    /** `getMailerLiteClient()`: no client without a key; otherwise the one
        client, created on the first call that has a key. */
    method GetMailerLiteClient(vars: map<string, string>) returns (c: Client?)
      modifies this
      ensures c == null <==> !Truthy(Lookup(vars, ApiKeyVar))
      ensures c != null ==> c == client
      ensures old(client) != null ==> client == old(client)
      ensures old(client) == null && c != null ==> fresh(c) && c.apiKey == vars[ApiKeyVar]
      ensures c == null ==> client == old(client)
      ensures cachedGroupId == old(cachedGroupId)
    {
      var apiKey := Lookup(vars, ApiKeyVar);
      if !Truthy(apiKey) {
        return null;
      }
      if client == null {
        client := new Client(apiKey.value);
      }
      return client;
    }

    /** `getGroupId()`: the configured id, else the cached id, else the first
        group the provider lists, which is then cached. */
    method GetGroupId(vars: map<string, string>, reply: GroupsReply) returns (g: Option<string>)
      modifies this
      ensures Resolution(g, cachedGroupId) ==
        ResolveGroup(Lookup(vars, GroupIdVar), old(cachedGroupId), Truthy(Lookup(vars, ApiKeyVar)), reply)
      ensures old(client) != null ==> client == old(client)
      ensures Truthy(Lookup(vars, GroupIdVar)) || Truthy(old(cachedGroupId)) ==> client == old(client)
      // without a key no client is built; a new client carries the key
      ensures !Truthy(Lookup(vars, ApiKeyVar)) ==> client == old(client)
      ensures old(client) == null && client != null ==> fresh(client) && client.apiKey == vars[ApiKeyVar]
      // on the fetch path a key builds the missing client
      ensures (old(client) == null && Truthy(Lookup(vars, ApiKeyVar))
               && !Truthy(Lookup(vars, GroupIdVar)) && !Truthy(old(cachedGroupId)))
              ==> client != null
    {
      var configured := Lookup(vars, GroupIdVar);
      if Truthy(configured) {
        return configured;
      }
      if Truthy(cachedGroupId) {
        return cachedGroupId;
      }
      var c := GetMailerLiteClient(vars);
      if c == null {
        return None;
      }
      match reply {
        case GroupsListed(Some(groups)) =>
          if |groups| > 0 {
            cachedGroupId := Some(groups[0].id);
            return cachedGroupId;
          }
          return None;
        case _ =>
          return None;
      }
    }
  }
}
