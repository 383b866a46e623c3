/**
 * Resolution of the BigCommerce credentials: environment defaults merged with
 * per-request overrides, the missing-key check the fetchers run before any
 * request, and the precedence of form values over the session's saved
 * credentials in the export and download routes.
 */
module Config {
  import opened Sequences

  /** A credential triple: the environment defaults or the values of a form. */
  datatype Credentials = Credentials(storeHash: string, clientId: string, accessToken: string)

  /** The configuration keys, in the order the merged configuration lists them. */
  const RequiredKeys: seq<string> := ["store_hash", "client_id", "access_token"]

  /** The credential a key names; "" for any other key. */
  function Credential(c: Credentials, key: string): string {
    if key == "store_hash" then c.storeHash
    else if key == "client_id" then c.clientId
    else if key == "access_token" then c.accessToken
    else ""
  }

  /** Value of a key in a configuration, "" when absent (`config.get(key, "")`). */
  function ConfigValue(config: map<string, string>, key: string): string {
    if key in config then config[key] else ""
  }

  /**
   * The effective configuration: the three defaults, each replaced by a
   * non-empty override, plus every other key with a non-empty override.
   */
  function Merged(env: Credentials, overrides: map<string, string>): (config: map<string, string>)
    ensures forall k :: k in RequiredKeys ==> k in config
    ensures forall k :: k in overrides && overrides[k] != "" ==> k in config && config[k] == overrides[k]
    ensures forall k :: k in config && (k !in overrides || overrides[k] == "") ==>
              k in RequiredKeys && config[k] == Credential(env, k)
    ensures forall k :: k in config ==> k in RequiredKeys || (k in overrides && overrides[k] != "")
    ensures forall k :: k in config && config[k] == "" ==> k in RequiredKeys
  {
    map k | k in (set r | r in RequiredKeys) + (set o | o in overrides && overrides[o] != "") ::
      if k in overrides && overrides[k] != "" then overrides[k] else Credential(env, k)
  }

  /** `get_bigcommerce_config`: start from the defaults, then apply each non-empty override in place. */
  method GetConfig(env: Credentials, overrides: map<string, string>) returns (config: map<string, string>)
    ensures config == Merged(env, overrides)
  {
    config := map["store_hash" := env.storeHash, "client_id" := env.clientId, "access_token" := env.accessToken];
    var todo := overrides.Keys;
    while todo != {}
      invariant todo <= overrides.Keys
      invariant forall k :: k in config <==>
                  k in RequiredKeys || (k in overrides && k !in todo && overrides[k] != "")
      invariant forall k :: k in config ==>
                  config[k] == if k in overrides && k !in todo && overrides[k] != "" then overrides[k] else Credential(env, k)
      decreases todo
    {
      var key :| key in todo;
      if overrides[key] != "" {
        config := config[key := overrides[key]];
      }
      todo := todo - {key};
    }
  }

  /** The keys among `keys` whose value in `config` is present and empty, in the order of `keys`. */
  function EmptyAmong(keys: seq<string>, config: map<string, string>): (missing: seq<string>)
    ensures forall k :: k in missing <==> k in keys && k in config && config[k] == ""
    ensures IsSubsequence(missing, keys)
  {
    if keys == [] then []
    else
      var rest := EmptyAmong(keys[1..], config);
      assert forall x :: x in keys[1..] ==> x in keys;
      if keys[0] in config && config[keys[0]] == "" then
        assert ([keys[0]] + rest)[1..] == rest;
        [keys[0]] + rest
      else
        rest
  }

  /**
   * The missing-configuration list of `fetch_products` and `fetch_brand_map`.
   * Only the three required keys can be empty in a merged configuration
   * (see Merged), so listing the empty required keys in their order gives the
   * same list as scanning every item of the configuration.
   */
  function MissingKeys(config: map<string, string>): (missing: seq<string>)
    ensures forall k :: k in missing <==> k in RequiredKeys && k in config && config[k] == ""
    ensures IsSubsequence(missing, RequiredKeys)
  {
    EmptyAmong(RequiredKeys, config)
  }

  /** A merged configuration lacks exactly the required keys whose default and override are both empty. */
  lemma MissingAfterMerge(env: Credentials, overrides: map<string, string>, k: string)
    ensures k in MissingKeys(Merged(env, overrides)) <==>
              k in RequiredKeys && Credential(env, k) == "" && (k !in overrides || overrides[k] == "")
  {
  }

  /** The override the export and download routes build: the non-empty form values. */
  function FormOverride(form: Credentials): (o: map<string, string>)
    ensures forall k :: k in o <==> k in RequiredKeys && Credential(form, k) != ""
    ensures forall k :: k in o ==> o[k] == Credential(form, k)
  {
    map k | k in (set r | r in RequiredKeys && Credential(form, r) != "") :: Credential(form, k)
  }

  /**
   * The export route: a non-empty form override is used and saved as the
   * session's credentials; otherwise the saved credentials (empty when none
   * are saved) are used and the session is left as it is.
   * Returns the override and the session's new credentials.
   */
  function ExportOverride(form: Credentials, session: map<string, string>): (r: (map<string, string>, map<string, string>))
    ensures FormOverride(form) != map[] ==> r == (FormOverride(form), FormOverride(form))
    ensures FormOverride(form) == map[] ==> r == (session, session)
  {
    var fromForm := FormOverride(form);
    if fromForm != map[] then (fromForm, fromForm)
    else if session != map[] then (session, session)
    else (fromForm, session)
  }

  /** The download route: the same choice, without saving anything. */
  function DownloadOverride(form: Credentials, session: map<string, string>): (o: map<string, string>)
    ensures o == ExportOverride(form, session).0
  {
    var fromForm := FormOverride(form);
    if fromForm == map[] && session != map[] then session else fromForm
  }

  /**
   * Precedence of the three sources for a required key: when any form value
   * is given, only form values and defaults count (the session is ignored
   * for every key); otherwise a saved value wins over the default.
   */
  lemma OverridePrecedence(env: Credentials, form: Credentials, session: map<string, string>, k: string)
    requires k in RequiredKeys
    ensures var config := Merged(env, ExportOverride(form, session).0);
            k in config &&
            config[k] == if FormOverride(form) != map[] then
                           (if Credential(form, k) != "" then Credential(form, k) else Credential(env, k))
                         else if k in session && session[k] != "" then session[k]
                         else Credential(env, k)
  {
    var o := ExportOverride(form, session).0;
    if FormOverride(form) != map[] {
      assert o == FormOverride(form);
      if Credential(form, k) == "" {
        assert k !in o;
      }
    }
  }
}
