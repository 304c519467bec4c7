/** Who may ask for which model: the credentials of a request, the admin key and the managed keys. */
module Clients {
  import opened Strings

  /** A managed key; an empty list of models allows all of them. */
  datatype ManagedKey = ManagedKey(quotaExhausted: bool, allowedModels: seq<string>)

  /** The credentials a request carries, in order, against the keys the gateway knows. */
  datatype Client = Client(credentials: seq<string>, adminKey: string, keys: map<string, ManagedKey>)

  /** A pattern is a model name, or the beginning of one followed by an asterisk. */
  predicate Matches(pattern: string, model: string) {
    pattern == model
    || (pattern != "" && pattern[|pattern| - 1] == '*' && pattern[..|pattern| - 1] <= model)
  }

  /** `IsModelAllowed`. */
  predicate IsModelAllowed(model: string, patterns: seq<string>) {
    patterns == [] || exists p :: p in patterns && Matches(p, model)
  }

  predicate IsAdmin(client: Client) {
    client.adminKey != "" && client.adminKey in client.credentials
  }

  /** The managed key of the first credential that has one. */
  function FirstKey(credentials: seq<string>, keys: map<string, ManagedKey>): Option<ManagedKey> {
    if credentials == [] then None
    else if credentials[0] in keys then Some(keys[credentials[0]])
    else FirstKey(credentials[1..], keys)
  }

  /** `AuthenticateGateway`: the status the client is refused with, if any. */
  function Refusal(client: Client, model: string): Option<nat> {
    if client.credentials == [] then Some(401)
    else if IsAdmin(client) then None
    else
      match FirstKey(client.credentials, client.keys)
      case None => Some(if client.adminKey == "" then 503 else 401)
      case Some(key) =>
        if key.quotaExhausted then Some(429)
        else if key.allowedModels != []
                && (model == "" || model == "unknown" || !IsModelAllowed(model, key.allowedModels))
        then Some(403)
        else None
  }

  /** The client's allow-list has nothing against the model. */
  predicate May(client: Client, model: string) {
    IsAdmin(client)
    || match FirstKey(client.credentials, client.keys)
       case None => false
       case Some(key) => IsModelAllowed(model, key.allowedModels)
  }

  /** The key that counts is that of the first credential that has one. */
  lemma {:induction false} FirstKeyIs(credentials: seq<string>, keys: map<string, ManagedKey>, i: nat)
    requires i <= |credentials| && forall j :: 0 <= j < i ==> credentials[j] !in keys
    requires i < |credentials| ==> credentials[i] in keys
    ensures FirstKey(credentials, keys) == if i < |credentials| then Some(keys[credentials[i]]) else None
  {
    if i > 0 {
      FirstKeyIs(credentials[1..], keys, i - 1);
    }
  }

  /** Whom the gateway turns away, and how: nobody with the admin key; 401 without any credential, or when none
      is known, then 503 instead if there is no admin key; 429 when the quota of the key is used up; 403 when its
      list of models is not empty and the model is unknown or not on it. */
  lemma RefusalIs(client: Client, model: string)
    ensures
      var key := FirstKey(client.credentials, client.keys);
      var nobody, admin := client.credentials == [], client.adminKey != "" && client.adminKey in client.credentials;
      && (admin ==> Refusal(client, model) == None)
      && (Refusal(client, model) == Some(503) <==> !nobody && !admin && key.None? && client.adminKey == "")
      && (Refusal(client, model) == Some(401) <==> nobody || (!admin && key.None? && client.adminKey != ""))
      && (Refusal(client, model) == Some(429) <==> !admin && key.Some? && key.value.quotaExhausted)
      && (Refusal(client, model) == Some(403) <==>
            && !admin && key.Some? && !key.value.quotaExhausted && key.value.allowedModels != []
            && (model == "" || model == "unknown" || forall p :: p in key.value.allowedModels ==> !Matches(p, model)))
      && (Refusal(client, model).Some? ==> Refusal(client, model).value in {401, 403, 429, 503})
  {
    hide Matches;
    if client.credentials == [] {
      assert FirstKey(client.credentials, client.keys) == None;
    }
  }

  /** A pattern with an asterisk at its end stands for every model that begins with the rest of it, any other
      pattern for itself. */
  lemma PatternsMatch(beginning: string, model: string)
    ensures Matches(beginning + "*", model) <==> beginning <= model
    ensures beginning == "" || beginning[|beginning| - 1] != '*' ==> (Matches(beginning, model) <==> beginning == model)
  {
    var p := beginning + "*";
    assert p[|p| - 1] == '*' && p[..|p| - 1] == beginning;
  }

  /** Whoever is let in may use the model that was asked for. */
  lemma AdmittedMay(client: Client, model: string)
    requires Refusal(client, model) == None
    ensures May(client, model)
  {
  }
}
