/** The environment schema checked once at start-up: per-variable rules, all
    applied, and a single failure when any of them is broken. */
module EnvSchema {
  import opened Js

  datatype NodeEnv = Development | Production | Test

  /** The validated configuration (`env`). */
  datatype Env = Env(
    mailerliteApiKey: Option<string>,
    mailerliteGroupId: Option<string>,
    nodeEnv: NodeEnv,
    sanityProjectId: string,
    sanityDataset: string,
    sanityApiVersion: string)

  /** The outcome of `safeParse`: the configuration, or the variables whose
      rule failed (the order of zod's issues is not modelled). */
  datatype Parsed = Valid(env: Env) | Invalid(failed: set<string>)

  const Fields: set<string> := {"MAILERLITE_API_KEY", "MAILERLITE_GROUP_ID", "NODE_ENV",
    "SANITY_PROJECT_ID", "SANITY_DATASET", "SANITY_API_VERSION"}

  /** `z.string().optional().transform(val => val && val.length > 0 ? val : undefined)`. */
  function OptionalText(v: Option<string>): (r: Option<string>)
    ensures r.None? <==> v.None? || v.value == ""
    ensures r.Some? ==> r == v
  {
    if v.Some? && |v.value| > 0 then v else None
  }

  function NodeEnvName(e: NodeEnv): string
  {
    match e
    case Development => "development"
    case Production => "production"
    case Test => "test"
  }

  /** `z.enum(["development", "production", "test"]).default("development")`:
      nothing when the value is not one of the three names. */
  function ParseNodeEnv(v: Option<string>): (r: Option<NodeEnv>)
    ensures v.None? ==> r == Some(Development)
    ensures v.Some? ==> (r.Some? <==> v.value in {"development", "production", "test"})
    ensures v.Some? && r.Some? ==> NodeEnvName(r.value) == v.value
  {
    match v
    case None => Some(Development)
    case Some(name) =>
      if name == "development" then Some(Development)
      else if name == "production" then Some(Production)
      else if name == "test" then Some(Test)
      else None
  }

  /** `z.string().min(1)`. */
  predicate IsRequiredText(v: Option<string>)
  {
    v.Some? && |v.value| >= 1
  }

  predicate IsDigit(c: char)
  {
    '0' <= c <= '9'
  }

  predicate AllDigits(s: string)
  {
    forall k :: 0 <= k < |s| ==> IsDigit(s[k])
  }

  /** `/^\d{4}-\d{2}-\d{2}$/`. */
  predicate IsApiVersion(s: string)
  {
    && |s| == 10
    && AllDigits(s[..4]) && s[4] == '-'
    && AllDigits(s[5..7]) && s[7] == '-'
    && AllDigits(s[8..])
  }

  /** For digit groups, the version is accepted exactly when the groups have
      four, two and two digits. */
  lemma ApiVersionOfGroups(year: string, month: string, day: string)
    requires AllDigits(year) && AllDigits(month) && AllDigits(day)
    ensures IsApiVersion(year + "-" + month + "-" + day) <==> |year| == 4 && |month| == 2 && |day| == 2
  {
  }

  /** Every accepted version splits into its year, month and day groups. */
  lemma ApiVersionGroups(s: string)
    requires IsApiVersion(s)
    ensures s == s[..4] + "-" + s[5..7] + "-" + s[8..]
  {
  }

  /** The rule for each variable of the schema. */
  predicate FieldOk(vars: map<string, string>, name: string)
  {
    if name == "NODE_ENV" then ParseNodeEnv(Lookup(vars, name)).Some?
    else if name == "SANITY_PROJECT_ID" || name == "SANITY_DATASET" then IsRequiredText(Lookup(vars, name))
    else if name == "SANITY_API_VERSION" then Lookup(vars, name).Some? && IsApiVersion(Lookup(vars, name).value)
    else true
  }

  function Failing(cond: bool, name: string): set<string>
  {
    if cond then {} else {name}
  }

  /** The variables whose rule does not hold, collected rule by rule. */
  function FailingFields(vars: map<string, string>): (failed: set<string>)
    ensures failed == set name | name in Fields && !FieldOk(vars, name)
  {
    var apiVersion := Lookup(vars, "SANITY_API_VERSION");
    Failing(ParseNodeEnv(Lookup(vars, "NODE_ENV")).Some?, "NODE_ENV")
    + Failing(IsRequiredText(Lookup(vars, "SANITY_PROJECT_ID")), "SANITY_PROJECT_ID")
    + Failing(IsRequiredText(Lookup(vars, "SANITY_DATASET")), "SANITY_DATASET")
    + Failing(apiVersion.Some? && IsApiVersion(apiVersion.value), "SANITY_API_VERSION")
  }

  /** `envSchema.safeParse(process.env)` followed by the throw on failure:
      either every rule holds and the whole configuration is produced, or
      the failing variables are reported and nothing is produced. */
  function ParseEnv(vars: map<string, string>): (r: Parsed)
    ensures r.Valid? <==> forall name :: name in Fields ==> FieldOk(vars, name)
    ensures r.Invalid? ==> r.failed == (set name | name in Fields && !FieldOk(vars, name)) && r.failed != {}
    ensures r.Valid? ==>
      && r.env.mailerliteApiKey == OptionalText(Lookup(vars, "MAILERLITE_API_KEY"))
      && r.env.mailerliteGroupId == OptionalText(Lookup(vars, "MAILERLITE_GROUP_ID"))
      && Some(r.env.nodeEnv) == ParseNodeEnv(Lookup(vars, "NODE_ENV"))
      && Some(r.env.sanityProjectId) == Lookup(vars, "SANITY_PROJECT_ID")
      && Some(r.env.sanityDataset) == Lookup(vars, "SANITY_DATASET")
      && Some(r.env.sanityApiVersion) == Lookup(vars, "SANITY_API_VERSION")
  {
    var nodeEnv := ParseNodeEnv(Lookup(vars, "NODE_ENV"));
    var projectId := Lookup(vars, "SANITY_PROJECT_ID");
    var dataset := Lookup(vars, "SANITY_DATASET");
    var apiVersion := Lookup(vars, "SANITY_API_VERSION");
    var failed := FailingFields(vars);
    if failed != {} then
      Invalid(failed)
    else
      assert FieldOk(vars, "NODE_ENV") && FieldOk(vars, "SANITY_PROJECT_ID");
      assert FieldOk(vars, "SANITY_DATASET") && FieldOk(vars, "SANITY_API_VERSION");
      Valid(Env(
        OptionalText(Lookup(vars, "MAILERLITE_API_KEY")),
        OptionalText(Lookup(vars, "MAILERLITE_GROUP_ID")),
        nodeEnv.value, projectId.value, dataset.value, apiVersion.value))
  }

  /** Leaving `NODE_ENV` unset selects development. */
  lemma NodeEnvDefault(vars: map<string, string>)
    requires "NODE_ENV" !in vars
    requires ParseEnv(vars).Valid?
    ensures ParseEnv(vars).env.nodeEnv == Development
  {
  }
}
