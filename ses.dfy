/** The settings-shaping function of the SES transport: it turns a loose
    options object into `{transport, options}`, copying two credentials
    always, three settings only when they are truthy and two more only when
    they are not `undefined`. */
module SesTransport {
  import opened JsValues

  /** The `nodemailer-ses-transport` module, which the model does not look into. */
  const SES_MODULE: Value := Opaque("nodemailer-ses-transport")

  /** Copied whatever their value, even `undefined`. */
  const ALWAYS_COPIED: set<string> := {"accessKeyId", "secretAccessKey"}
  /** Copied only when truthy. */
  const COPIED_IF_TRUTHY: set<string> := {"sessionToken", "region", "httpOptions"}
  /** Copied whenever not `undefined`, so `0` and `false` are kept. */
  const COPIED_IF_DEFINED: set<string> := {"rateLimit", "maxConnections"}

  const SES_OPTION_KEYS: set<string> := ALWAYS_COPIED + COPIED_IF_TRUTHY + COPIED_IF_DEFINED

  /** Whether the transport options receive `key` when the input holds `v` there. */
  predicate Forwarded(key: string, v: Value) {
    || key in ALWAYS_COPIED
    || (key in COPIED_IF_TRUTHY && Truthy(v))
    || (key in COPIED_IF_DEFINED && v != Undefined)
  }

  /** The inner `options` object, by the key-inclusion rule above. */
  function SesOptions(options: map<string, Value>): (opts: map<string, Value>)
    ensures opts.Keys <= SES_OPTION_KEYS
    ensures forall k :: k in opts ==> opts[k] == Lookup(options, k)
  {
    map k | k in SES_OPTION_KEYS && Forwarded(k, Lookup(options, k)) :: Lookup(options, k)
  }

  /** A map that agrees with the rule key by key is `SesOptions`. */
  lemma AgreesWithSesOptions(options: map<string, Value>, opts: map<string, Value>)
    requires opts.Keys <= SES_OPTION_KEYS
    requires forall k :: k in SES_OPTION_KEYS ==> (k in opts <==> Forwarded(k, Lookup(options, k)))
    requires forall k :: k in opts ==> opts[k] == Lookup(options, k)
    ensures opts == SesOptions(options)
  {
  }

  /** The settings object the function returns: the SES module under
      `transport` and the shaped options under `options`, nothing else. */
  function SesSettings(options: map<string, Value>): (settings: map<string, Value>)
    ensures settings.Keys == {"transport", "options"}
    ensures settings["transport"] == SES_MODULE
    ensures settings["options"].Obj? && settings["options"].props == SesOptions(options)
  {
    map["transport" := SES_MODULE, "options" := Obj(SesOptions(options))]
  }

  /** The settings are built key by key, as the source does, and come out as
      `SesSettings` says. */
  method BuildSettings(options: map<string, Value>) returns (settings: map<string, Value>)
    ensures settings == SesSettings(options)
  {
    settings := map["transport" := SES_MODULE];

    var opts := map[
      "accessKeyId" := Lookup(options, "accessKeyId"),
      "secretAccessKey" := Lookup(options, "secretAccessKey")
    ];

    if Truthy(Lookup(options, "sessionToken")) {
      opts := opts["sessionToken" := Lookup(options, "sessionToken")];
    }

    if Truthy(Lookup(options, "region")) {
      opts := opts["region" := Lookup(options, "region")];
    }

    if Truthy(Lookup(options, "httpOptions")) {
      opts := opts["httpOptions" := Lookup(options, "httpOptions")];
    }

    if Lookup(options, "rateLimit") != Undefined {
      opts := opts["rateLimit" := Lookup(options, "rateLimit")];
    }

    if Lookup(options, "maxConnections") != Undefined {
      opts := opts["maxConnections" := Lookup(options, "maxConnections")];
    }

    assert "accessKeyId" in opts <==> Forwarded("accessKeyId", Lookup(options, "accessKeyId"));
    assert "secretAccessKey" in opts <==> Forwarded("secretAccessKey", Lookup(options, "secretAccessKey"));
    assert "sessionToken" in opts <==> Forwarded("sessionToken", Lookup(options, "sessionToken"));
    assert "region" in opts <==> Forwarded("region", Lookup(options, "region"));
    assert "httpOptions" in opts <==> Forwarded("httpOptions", Lookup(options, "httpOptions"));
    assert "rateLimit" in opts <==> Forwarded("rateLimit", Lookup(options, "rateLimit"));
    assert "maxConnections" in opts <==> Forwarded("maxConnections", Lookup(options, "maxConnections"));
    AgreesWithSesOptions(options, opts);

    settings := settings["options" := Obj(opts)];
  }

  /** Both credentials are always present and equal the input, even when
      the input leaves them `undefined`. */
  lemma CredentialsAlwaysCopied(options: map<string, Value>)
    ensures "accessKeyId" in SesOptions(options)
    ensures SesOptions(options)["accessKeyId"] == Lookup(options, "accessKeyId")
    ensures "secretAccessKey" in SesOptions(options)
    ensures SesOptions(options)["secretAccessKey"] == Lookup(options, "secretAccessKey")
  {
  }

  /** `sessionToken`, `region` and `httpOptions` are present exactly when the
      input value is truthy, and then unchanged. */
  lemma TruthyKeysCopied(options: map<string, Value>, key: string)
    requires key in COPIED_IF_TRUTHY
    ensures key in SesOptions(options) <==> Truthy(Lookup(options, key))
    ensures key in SesOptions(options) ==> SesOptions(options)[key] == Lookup(options, key)
  {
  }

  /** `rateLimit` and `maxConnections` are present exactly when the input is
      not `undefined`, and then unchanged. */
  lemma DefinedKeysCopied(options: map<string, Value>, key: string)
    requires key in COPIED_IF_DEFINED
    ensures key in SesOptions(options) <==> Lookup(options, key) != Undefined
    ensures key in SesOptions(options) ==> SesOptions(options)[key] == Lookup(options, key)
  {
  }

  /** No optional setting appears as an explicit `undefined`, so none can
      override the transport's own default. */
  lemma NoUndefinedOptionalKeys(options: map<string, Value>, key: string)
    requires key in SesOptions(options) && key !in ALWAYS_COPIED
    ensures SesOptions(options)[key] != Undefined
  {
  }

  /** The settings depend on the seven named keys only: inputs that agree on
      those give the same settings, whatever else they carry. */
  lemma OnlyNamedKeysMatter(a: map<string, Value>, b: map<string, Value>)
    requires forall k :: k in SES_OPTION_KEYS ==> Lookup(a, k) == Lookup(b, k)
    ensures SesSettings(a) == SesSettings(b)
  {
    assert SesOptions(a) == SesOptions(b);
  }

  /** Credentials and a region, nothing else: the other settings are omitted
      entirely rather than set to `undefined`. */
  lemma RegionOnlyExample()
    ensures SesSettings(map[
              "accessKeyId" := Str("A"),
              "secretAccessKey" := Str("B"),
              "region" := Str("us-east-1")])
         == map["transport" := SES_MODULE,
                "options" := Obj(map[
                  "accessKeyId" := Str("A"),
                  "secretAccessKey" := Str("B"),
                  "region" := Str("us-east-1")])]
  {
    var input := map["accessKeyId" := Str("A"), "secretAccessKey" := Str("B"), "region" := Str("us-east-1")];
    var expected := map["accessKeyId" := Str("A"), "secretAccessKey" := Str("B"), "region" := Str("us-east-1")];
    assert SesOptions(input) == expected by {
      assert Lookup(input, "sessionToken") == Undefined;
      assert Lookup(input, "httpOptions") == Undefined;
      assert Lookup(input, "rateLimit") == Undefined;
      assert Lookup(input, "maxConnections") == Undefined;
    }
  }
}
