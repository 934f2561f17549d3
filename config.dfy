/** Account and endpoint configuration (kis/config.py). The process
    environment is an input map from variable name to value. */
module Config {
  import opened Util

  datatype Config = Config(
    env: string,
    appKey: string,
    appSecret: string,
    cano: string,
    acntPrdtCd: string,
    htsId: string,
    custtype: string)

  /** The two failures `load_config` raises. */
  datatype ConfigError =
    | MissingVariables(names: seq<string>)
    | UnknownEnv(env: string)

  const VtsRestBase := "https://openapivts.koreainvestment.com:29443"
  const ProdRestBase := "https://openapi.koreainvestment.com:9443"
  const VtsWsUrl := "ws://ops.koreainvestment.com:31000"
  const ProdWsUrl := "ws://ops.koreainvestment.com:21000"
  /** Private execution-notification topics: "H0STCNI9" for the paper-trading
      (vts) venue, "H0STCNI0" for production. */
  const VtsExecTrId := "H0STCNI9"
  const ProdExecTrId := "H0STCNI0"

  function RestBase(c: Config): (r: string)
    ensures r == VtsRestBase <==> c.env == "vts"
    ensures r == ProdRestBase <==> c.env != "vts"
  {
    if c.env == "vts" then VtsRestBase else ProdRestBase
  }

  function WsUrl(c: Config): (r: string)
    ensures r == VtsWsUrl <==> c.env == "vts"
    ensures r == ProdWsUrl <==> c.env != "vts"
  {
    if c.env == "vts" then VtsWsUrl else ProdWsUrl
  }

  function ExecTrId(c: Config): (r: string)
    ensures r == VtsExecTrId <==> c.env == "vts"
    ensures r == ProdExecTrId <==> c.env != "vts"
  {
    if c.env == "vts" then VtsExecTrId else ProdExecTrId
  }

  /** `os.getenv(name, default)`. */
  function GetEnv(environ: map<string, string>, name: string, default: string): string {
    if name in environ then environ[name] else default
  }

  /** `os.getenv(name, default).strip()`. Every default `load_config` passes
      ("prod", "01", "P" and "") is free of surrounding whitespace, so the
      strip is applied to values read from the environment only. */
  function Field(environ: map<string, string>, name: string, default: string): string {
    if name in environ then Strip(environ[name]) else default
  }

  /** Setting one variable changes no field read under another name. */
  lemma FieldOther(environ: map<string, string>, key: string, v: string, name: string, default: string)
    requires key != name
    ensures Field(environ[key := v], name, default) == Field(environ, name, default)
  {
  }

  /** The `Config` that `load_config` builds before validating it: every
      field is trimmed, the environment name is lower case as well, and the
      customer type is never empty. */
  function ReadConfig(environ: map<string, string>): (c: Config)
    ensures c.custtype != ""
    ensures Trimmed(c.env) && Lower(c.env) == c.env
    ensures Trimmed(c.appKey) && Trimmed(c.appSecret) && Trimmed(c.cano)
    ensures Trimmed(c.acntPrdtCd) && Trimmed(c.htsId) && Trimmed(c.custtype)
  {
    LowerTrimmed(Field(environ, "KIS_ENV", "prod"));
    var custtype := Field(environ, "KIS_CUSTTYPE", "P");
    Config(
      env := Lower(Field(environ, "KIS_ENV", "prod")),
      appKey := Field(environ, "KIS_APP_KEY", ""),
      appSecret := Field(environ, "KIS_APP_SECRET", ""),
      cano := Field(environ, "KIS_CANO", ""),
      acntPrdtCd := Field(environ, "KIS_ACNT_PRDT_CD", "01"),
      htsId := Field(environ, "KIS_HTS_ID", ""),
      custtype := if custtype == "" then "P" else custtype)
  }

  /** The required variables, in the order `load_config` checks them, with
      the values read for them. */
  function Required(c: Config): seq<(string, string)> {
    [("KIS_APP_KEY", c.appKey),
     ("KIS_APP_SECRET", c.appSecret),
     ("KIS_CANO", c.cano),
     ("KIS_ACNT_PRDT_CD", c.acntPrdtCd),
     ("KIS_HTS_ID", c.htsId)]
  }

  /** `[k for k, v in fields if not v]`. */
  function EmptyNames(fields: seq<(string, string)>): (r: seq<string>)
    ensures |r| <= |fields|
    ensures r == [] <==> forall i :: 0 <= i < |fields| ==> fields[i].1 != ""
  {
    if |fields| == 0 then []
    else
      var rest := EmptyNames(fields[1..]);
      assert forall i :: 1 <= i < |fields| ==> fields[i] == fields[1..][i - 1];
      if fields[0].1 == "" then [fields[0].0] + rest else rest
  }

  function Missing(c: Config): (r: seq<string>)
    ensures r == [] <==> (c.appKey != "" && c.appSecret != "" && c.cano != "" && c.acntPrdtCd != "" && c.htsId != "")
  {
    var fields := Required(c);
    assert forall i :: 0 <= i < 5 ==> fields[i].1 in {c.appKey, c.appSecret, c.cano, c.acntPrdtCd, c.htsId};
    assert fields[0].1 == c.appKey && fields[1].1 == c.appSecret && fields[2].1 == c.cano;
    assert fields[3].1 == c.acntPrdtCd && fields[4].1 == c.htsId;
    EmptyNames(fields)
  }

  /** `load_config()`: missing variables are reported before an unknown
      environment name. */
  function LoadConfig(environ: map<string, string>): (r: Result<Config, ConfigError>)
    ensures r.Success? ==> r.value == ReadConfig(environ)
    ensures r.Success? <==> Missing(ReadConfig(environ)) == [] && ReadConfig(environ).env in {"prod", "vts"}
    ensures r.Failure? && r.error.MissingVariables? ==> r.error.names == Missing(ReadConfig(environ)) != []
    ensures r.Failure? && r.error.UnknownEnv? ==> Missing(ReadConfig(environ)) == []
  {
    var cfg := ReadConfig(environ);
    var missing := Missing(cfg);
    if missing != [] then Failure(MissingVariables(missing))
    else if cfg.env != "prod" && cfg.env != "vts" then Failure(UnknownEnv(cfg.env))
    else Success(cfg)
  }

  /** A configuration `load_config` accepts names one of the two venues,
      has all five account fields set and a non-empty customer type; every
      field is free of surrounding whitespace. */
  lemma LoadConfigAccepted(environ: map<string, string>)
    requires LoadConfig(environ).Success?
    ensures var c := LoadConfig(environ).value;
      && (c.env == "prod" || c.env == "vts")
      && c.appKey != "" && c.appSecret != "" && c.cano != "" && c.acntPrdtCd != "" && c.htsId != ""
      && c.custtype != ""
      && Strip(c.appKey) == c.appKey && Strip(c.appSecret) == c.appSecret && Strip(c.cano) == c.cano
      && Strip(c.acntPrdtCd) == c.acntPrdtCd && Strip(c.htsId) == c.htsId && Strip(c.custtype) == c.custtype
  {
    var c := LoadConfig(environ).value;
    StripFixed(c.appKey);
    StripFixed(c.appSecret);
    StripFixed(c.cano);
    StripFixed(c.acntPrdtCd);
    StripFixed(c.htsId);
    StripFixed(c.custtype);
  }

  /** Defaults: KIS_ENV is "prod" when unset. */
  lemma DefaultEnv(environ: map<string, string>)
    requires "KIS_ENV" !in environ
    ensures ReadConfig(environ).env == "prod"
  {
    assert Lower("prod") == "prod";
  }

  /** Defaults: KIS_ACNT_PRDT_CD is "01" when unset. */
  lemma DefaultAccountProduct(environ: map<string, string>)
    requires "KIS_ACNT_PRDT_CD" !in environ
    ensures ReadConfig(environ).acntPrdtCd == "01"
  {
  }

  /** Defaults: KIS_CUSTTYPE is "P" when unset or blank. */
  lemma DefaultCusttype(environ: map<string, string>)
    requires "KIS_CUSTTYPE" !in environ || Strip(environ["KIS_CUSTTYPE"]) == ""
    ensures ReadConfig(environ).custtype == "P"
  {
  }

  function NameIf(empty: bool, name: string): seq<string> {
    if empty then [name] else []
  }

  lemma EmptyNamesCons(fields: seq<(string, string)>)
    requires |fields| > 0
    ensures EmptyNames(fields) == NameIf(fields[0].1 == "", fields[0].0) + EmptyNames(fields[1..])
  {
  }

  lemma {:induction false} EmptyNamesFive(f: seq<(string, string)>)
    requires |f| == 5
    ensures EmptyNames(f) ==
      NameIf(f[0].1 == "", f[0].0) + (NameIf(f[1].1 == "", f[1].0) + (NameIf(f[2].1 == "", f[2].0)
      + (NameIf(f[3].1 == "", f[3].0) + NameIf(f[4].1 == "", f[4].0))))
  {
    EmptyNamesCons(f);
    EmptyNamesCons(f[1..]);
    EmptyNamesCons(f[2..]);
    EmptyNamesCons(f[3..]);
    EmptyNamesCons(f[4..]);
    assert f[1..][1..] == f[2..];
    assert f[2..][1..] == f[3..];
    assert f[3..][1..] == f[4..];
    assert f[4..][1..] == [];
    assert EmptyNames(f[4..]) == NameIf(f[4].1 == "", f[4].0);
  }

  /** The missing list names exactly the empty fields, in the fixed order
      KIS_APP_KEY, KIS_APP_SECRET, KIS_CANO, KIS_ACNT_PRDT_CD, KIS_HTS_ID. */
  lemma MissingInOrder(c: Config)
    ensures Missing(c) ==
      NameIf(c.appKey == "", "KIS_APP_KEY") + (NameIf(c.appSecret == "", "KIS_APP_SECRET")
      + (NameIf(c.cano == "", "KIS_CANO") + (NameIf(c.acntPrdtCd == "", "KIS_ACNT_PRDT_CD")
      + NameIf(c.htsId == "", "KIS_HTS_ID"))))
  {
    EmptyNamesFive(Required(c));
  }

  /** With every variable unset the missing list names the four account
      variables that have no default. */
  lemma EmptyEnvironment()
    ensures LoadConfig(map[]) == Failure(MissingVariables(["KIS_APP_KEY", "KIS_APP_SECRET", "KIS_CANO", "KIS_HTS_ID"]))
  {
    var e: map<string, string> := map[];
    EmptyEnvironmentFields();
    var c := ReadConfig(e);
    MissingInOrder(c);
    ConcatFour("KIS_APP_KEY", "KIS_APP_SECRET", "KIS_CANO", "KIS_HTS_ID");
    LoadConfigMissing(e);
  }

  lemma EmptyEnvironmentFields()
    ensures var c := ReadConfig(map[]);
      c.appKey == "" && c.appSecret == "" && c.cano == "" && c.acntPrdtCd == "01" && c.htsId == ""
  {
  }

  lemma ConcatFour(a: string, b: string, c: string, d: string)
    ensures [a] + ([b] + ([c] + ([] + [d]))) == [a, b, c, d]
  {
  }

  /** Any missing variable makes `load_config` report exactly the missing list. */
  lemma LoadConfigMissing(environ: map<string, string>)
    requires Missing(ReadConfig(environ)) != []
    ensures LoadConfig(environ) == Failure(MissingVariables(Missing(ReadConfig(environ))))
  {
  }

  /** The missing-variable check comes first: with a required variable
      unset, the value of KIS_ENV makes no difference. */
  lemma MissingBeforeEnv(environ: map<string, string>, env: string)
    requires Missing(ReadConfig(environ)) != []
    ensures LoadConfig(environ) == LoadConfig(environ["KIS_ENV" := env])
    ensures LoadConfig(environ).Failure? && LoadConfig(environ).error.MissingVariables?
  {
    var e2 := environ["KIS_ENV" := env];
    assert |"KIS_ENV"| == 7;
    FieldOther(environ, "KIS_ENV", env, "KIS_APP_KEY", "");
    FieldOther(environ, "KIS_ENV", env, "KIS_APP_SECRET", "");
    FieldOther(environ, "KIS_ENV", env, "KIS_CANO", "");
    FieldOther(environ, "KIS_ENV", env, "KIS_ACNT_PRDT_CD", "01");
    FieldOther(environ, "KIS_ENV", env, "KIS_HTS_ID", "");
    FieldOther(environ, "KIS_ENV", env, "KIS_CUSTTYPE", "P");
    assert Required(ReadConfig(e2)) == Required(ReadConfig(environ));
  }
}
