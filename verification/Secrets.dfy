/** Which credentials a sync pass uses. */
module Secrets {
  import opened Types

  const USER_KEY := "BC_RPC_USER"
  const PASSWORD_KEY := "BC_RPC_PASSWORD"
  const DEFAULT_USER := "user"
  const DEFAULT_PASSWORD := "password"

  type SecretData = map<string, string>

  datatype Credentials = Credentials(user: string, password: string, failed: bool)

  predicate Usable(ref: Ref, stored: map<Ref, SecretData>) {
    ref in stored && USER_KEY in stored[ref] && PASSWORD_KEY in stored[ref]
  }

  /** stored holds the secrets that can be read; a secret missing there stands for any failed Get. */
  function CredentialsForSecret(name: string, ns: string, stored: map<Ref, SecretData>): (c: Credentials)
    ensures c.failed <==> name != "" && !Usable(Ref(ns, name), stored)
    ensures !c.failed && name != "" ==>
      c.user == stored[Ref(ns, name)][USER_KEY] && c.password == stored[Ref(ns, name)][PASSWORD_KEY]
    ensures c.failed || name == "" ==> c.user == DEFAULT_USER && c.password == DEFAULT_PASSWORD
  {
    if name == "" then Credentials(DEFAULT_USER, DEFAULT_PASSWORD, false)
    else if Ref(ns, name) !in stored then Credentials(DEFAULT_USER, DEFAULT_PASSWORD, true)
    else
      var data := stored[Ref(ns, name)];
      if USER_KEY !in data then Credentials(DEFAULT_USER, DEFAULT_PASSWORD, true)
      else if PASSWORD_KEY !in data then Credentials(DEFAULT_USER, DEFAULT_PASSWORD, true)
      else Credentials(data[USER_KEY], data[PASSWORD_KEY], false)
  }
}
