/**
 * The login form: the digit filter on the cédula field and the decision
 * made on submit (blank check, credentials check, identity lookup).
 */
module LoginForm {
  import opened Wrappers
  import opened BrowserStorage
  import opened AuthContext

  predicate IsDigit(c: char)
  {
    '0' <= c <= '9'
  }

  predicate AllDigits(s: string)
  {
    forall i :: 0 <= i < |s| ==> IsDigit(s[i])
  }

  /** `value.replace(/[^0-9]/g, '')`: the digits of `s`, in order. */
  function DigitsOnly(s: string): (r: string)
    ensures AllDigits(r)
    ensures |r| <= |s|
  {
    if s == [] then [] else (if IsDigit(s[0]) then [s[0]] else []) + DigitsOnly(s[1..])
  }

  /** The filter works piecewise: filtering a concatenation filters each part. */
  lemma {:induction false} DigitsOnlyAppend(a: string, b: string)
    ensures DigitsOnly(a + b) == DigitsOnly(a) + DigitsOnly(b)
  {
    if a != [] {
      assert (a + b)[0] == a[0] && (a + b)[1..] == a[1..] + b;
      DigitsOnlyAppend(a[1..], b);
    } else {
      assert a + b == b;
    }
  }

  /** A string of digits passes the filter unchanged, and only such a string does. */
  lemma {:induction false} DigitsOnlyFixesDigits(s: string)
    ensures DigitsOnly(s) == s <==> AllDigits(s)
  {
    if s != [] {
      DigitsOnlyFixesDigits(s[1..]);
      if !IsDigit(s[0]) {
        assert |DigitsOnly(s)| <= |s[1..]| < |s|;
      }
    }
  }

  /** Filtering twice is filtering once. */
  lemma DigitsOnlyIdempotent(s: string)
    ensures DigitsOnly(DigitsOnly(s)) == DigitsOnly(s)
  {
    DigitsOnlyFixesDigits(DigitsOnly(s));
  }

  /** Every digit of the input is kept as often as it occurs; nothing else is kept. */
  lemma {:induction false} DigitsOnlyKeepsDigits(s: string, c: char)
    ensures multiset(DigitsOnly(s))[c] == if IsDigit(c) then multiset(s)[c] else 0
  {
    if s != [] {
      DigitsOnlyKeepsDigits(s[1..], c);
      assert s == [s[0]] + s[1..];
    }
  }

  /** JavaScript's white space and line terminators, which `trim()` removes. */
  predicate IsJsSpace(c: char)
  {
    || c == ' ' || c == '\t' || c == '\n' || c == '\r' || c == '\U{000B}' || c == '\U{000C}'
    || c == '\U{00A0}' || c == '\U{FEFF}' || c == '\U{1680}' || ('\U{2000}' <= c <= '\U{200A}')
    || c == '\U{2028}' || c == '\U{2029}' || c == '\U{202F}' || c == '\U{205F}' || c == '\U{3000}'
  }

  /** `s.trim()` is empty. */
  predicate IsBlank(s: string)
  {
    forall i :: 0 <= i < |s| ==> IsJsSpace(s[i])
  }

  /** For a filtered cédula, blank means empty. */
  lemma DigitsBlankIffEmpty(s: string)
    requires AllDigits(s)
    ensures IsBlank(s) <==> s == ""
  {
    if s != "" {
      assert !IsJsSpace(s[0]);
    }
  }

  const TableName: string := "Nomina Sirius"
  /** `encodeURIComponent(TableName)`. */
  const EncodedTableName: string := "Nomina%20Sirius"

  /** The lookup's filter expression `({Cedula}='<cedula>')`. */
  function FilterFormula(cedula: string): (f: string)
    ensures |f| == |cedula| + 13
    ensures f[10] == '\'' && f[|f| - 2] == '\''
    ensures f[11..|f| - 2] == cedula
  {
    "({Cedula}='" + cedula + "')"
  }

  /**
   * A filtered cédula cannot break out of the quoted value: the only quotes
   * in the formula are the two that delimit it.
   */
  lemma FormulaQuotesOnlyDelimit(raw: string, i: int)
    requires 0 <= i < |FilterFormula(DigitsOnly(raw))|
    requires FilterFormula(DigitsOnly(raw))[i] == '\''
    ensures i == 10 || i == |FilterFormula(DigitsOnly(raw))| - 2
  {
  }

  /** The lookup URL, built before the credentials are checked. */
  function LookupUrl(baseId: string, cedula: string): string
  {
    "https://api.airtable.com/v0/" + baseId + "/" + EncodedTableName + "?filterByFormula=" + FilterFormula(cedula)
  }

  /** The two credentials read from the build environment; absent or empty means missing. */
  datatype Config = Config(apiKey: Option<string>, baseId: Option<string>)

  predicate Configured(cfg: Config)
  {
    cfg.apiKey.Some? && cfg.apiKey.value != "" && cfg.baseId.Some? && cfg.baseId.value != ""
  }

  /** The body of a lookup response. */
  datatype Body =
    | Unparsable             // `response.json()` throws
    | NoRecords              // no `records` array
    | Records(count: nat)    // a `records` array of this length

  /** How the lookup request ended. */
  datatype Reply =
    | Unreachable                       // `fetch` rejects
    | Replied(ok: bool, body: Body)     // a response with this status class and body

  /** The notice (toast) shown at the end of a submit. */
  datatype Notice = EnterCedula | MissingCredentials | LookupFailed | NotRegistered | Welcome

  /** What a submit did. */
  datatype Submit = Submit(
    loadingShown: bool,        // `isLoading` was set while handling it
    request: Option<string>,   // the URL requested, if any
    notice: Notice,
    loginWith: Option<string>) // the argument `onLogin` was called with, if it was

  /** The decision procedure of `handleSubmit`. */
  function Decide(cedula: string, cfg: Config, reply: Reply): (r: Submit)
    ensures r.loadingShown <==> !IsBlank(cedula)
    ensures r.request.Some? <==> !IsBlank(cedula) && Configured(cfg)
    ensures r.request.Some? ==> r.request.value == LookupUrl(cfg.baseId.value, cedula)
    ensures r.loginWith.Some? <==> r.request.Some? && reply.Replied? && reply.ok && reply.body.Records? && reply.body.count > 0
    ensures r.loginWith.Some? ==> r.loginWith.value == cedula && r.notice == Welcome
    ensures IsBlank(cedula) ==> r.notice == EnterCedula
    ensures !IsBlank(cedula) && !Configured(cfg) ==> r.notice == MissingCredentials
    ensures r.request.Some? && (reply.Unreachable? || !reply.ok || reply.body.Unparsable?) ==> r.notice == LookupFailed
    ensures r.request.Some? && reply.Replied? && reply.ok && !reply.body.Unparsable? && r.loginWith.None? ==> r.notice == NotRegistered
  {
    if IsBlank(cedula) then
      Submit(false, None, EnterCedula, None)
    else if !Configured(cfg) then
      Submit(true, None, MissingCredentials, None)
    else
      var url := LookupUrl(cfg.baseId.value, cedula);
      match reply
      case Unreachable => Submit(true, Some(url), LookupFailed, None)
      case Replied(ok, body) =>
        if !ok then Submit(true, Some(url), LookupFailed, None)
        else match body
          case Unparsable => Submit(true, Some(url), LookupFailed, None)
          case NoRecords => Submit(true, Some(url), NotRegistered, None)
          case Records(n) =>
            if n > 0 then Submit(true, Some(url), Welcome, Some(cedula))
            else Submit(true, Some(url), NotRegistered, None)
  }

  /** The login form's state. `onLogin` is the auth store's `login`. */
  class Form {
    var cedula: string
    var isLoading: bool

    /** The field only ever holds what the filter let through. */
    ghost predicate Valid()
      reads this
    {
      AllDigits(cedula)
    }

    constructor ()
      ensures Valid()
      ensures cedula == "" && !isLoading
    {
      cedula := "";
      isLoading := false;
    }

    /** The field's `onChange`: keep only the digits of what was typed. */
    method OnChange(raw: string)
      modifies this
      ensures Valid()
      ensures cedula == DigitsOnly(raw) && isLoading == old(isLoading)
    {
      cedula := DigitsOnly(raw);
    }

    /**
     * `handleSubmit`, with the outcome of the lookup as an input. A blank
     * cédula leaves `isLoading` alone; every other path ends with it false.
     */
    method HandleSubmit(cfg: Config, reply: Reply, auth: AuthProvider) returns (r: Submit)
      modifies this, auth, auth.storage
      ensures r == Decide(cedula, cfg, reply)
      ensures cedula == old(cedula)
      ensures isLoading == (if IsBlank(cedula) then old(isLoading) else false)
      ensures r.loginWith.Some? ==>
        && auth.isAuthenticated && auth.userCedula == r.loginWith
        && auth.storage.items == old(auth.storage.items)[UserKey := TextValue(cedula)]
      ensures r.loginWith.None? ==>
        && auth.isAuthenticated == old(auth.isAuthenticated) && auth.userCedula == old(auth.userCedula)
        && auth.storage.items == old(auth.storage.items)
    {
      if IsBlank(cedula) {
        return Submit(false, None, EnterCedula, None);
      }
      isLoading := true;
      var url := LookupUrl(if cfg.baseId.Some? then cfg.baseId.value else "undefined", cedula);
      if !Configured(cfg) {
        isLoading := false;
        return Submit(true, None, MissingCredentials, None);
      }
      var notice: Notice;
      var loginWith: Option<string> := None;
      match reply {
        case Unreachable =>
          notice := LookupFailed;
        case Replied(ok, body) =>
          if !ok || body.Unparsable? {
            notice := LookupFailed;
          } else if body.Records? && body.count > 0 {
            auth.Login(cedula);
            loginWith := Some(cedula);
            notice := Welcome;
          } else {
            notice := NotRegistered;
          }
      }
      isLoading := false;
      r := Submit(true, Some(url), notice, loginWith);
    }
  }

}
