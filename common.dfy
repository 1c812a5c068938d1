/** Values shared by both functions of the site-to-site system: error wrappers,
    the environment each function reads, and the few string helpers of Go's
    standard library that the code relies on (strings.Join, strings.Contains,
    the %d verb of fmt). */
module Common {

  datatype Option<+T> = None | Some(value: T)

  /** A Go `(T, error)` pair: either a value or the text of the error. */
  datatype Result<+T> = Ok(value: T) | Err(msg: string)

  /** The environment variables the two functions read, as one record.
      An unset variable reads as the empty string, as os.Getenv does. */
  datatype Env = Env(
    prefix: string,        // PREFIX: the managed stack's name and the prefix of derived names
    vpcId: string,         // VPC_ID
    merakiOrgId: string,   // MERAKI_ORG_ID
    merakiApiKey: string,  // MERAKI_APIKEY
    routeTableId: string,  // ROUTE_TABLE_ID
    homeIp: string,        // HOME_IP
    snsTopic: string       // SNS_TOPIC
  )

  /** strings.Join */
  function Join(parts: seq<string>, sep: string): (joined: string)
  {
    if |parts| == 0 then ""
    else if |parts| == 1 then parts[0]
    else parts[0] + sep + Join(parts[1..], sep)
  }

  lemma JoinCons(first: string, rest: seq<string>, sep: string)
    requires rest != []
    ensures Join([first] + rest, sep) == first + sep + Join(rest, sep)
  {
    assert ([first] + rest)[1..] == rest;
  }

  predicate StartsWith(s: string, prefix: string)
  {
    |prefix| <= |s| && s[..|prefix|] == prefix
  }

  /** strings.Contains: `sub` occurs somewhere in `s`. */
  predicate Contains(s: string, sub: string)
    decreases |s|
  {
    StartsWith(s, sub) || (s != [] && Contains(s[1..], sub))
  }

  /** Whatever surrounds it, a string contains each of its infixes. */
  lemma {:induction false} ContainsInfix(before: string, sub: string, after: string)
    ensures Contains(before + sub + after, sub)
  {
    var s := before + sub + after;
    if before == [] {
      assert s[..|sub|] == sub;
    } else {
      assert s[1..] == before[1..] + sub + after;
      ContainsInfix(before[1..], sub, after);
    }
  }

  /** The number a string of decimal digits spells, most significant digit first. */
  function DecimalValue(s: string): nat
    requires forall i :: 0 <= i < |s| ==> '0' <= s[i] <= '9'
    decreases |s|
  {
    if s == [] then 0
    else DecimalValue(s[..|s| - 1]) * 10 + (s[|s| - 1] as int - '0' as int)
  }

  /** The decimal digits of `n`, as fmt's %d verb prints a non-negative int;
      `NatToStringValue` shows that they spell `n`. */
  function NatToString(n: nat): (s: string)
    ensures |s| > 0
    ensures forall i :: 0 <= i < |s| ==> '0' <= s[i] <= '9'
    ensures n < 10 <==> |s| == 1
    decreases n
  {
    if n < 10 then ["0123456789"[n]]
    else NatToString(n / 10) + ["0123456789"[n % 10]]
  }

  /** The digits %d prints read back as the number printed. */
  lemma {:induction false} NatToStringValue(n: nat)
    ensures DecimalValue(NatToString(n)) == n
    decreases n
  {
    var s := NatToString(n);
    if n < 10 {
      assert s[..0] == [];
    } else {
      NatToStringValue(n / 10);
      assert s[..|s| - 1] == NatToString(n / 10);
    }
  }

  /** The names of the required variables whose value is empty, in the
      order in which they are checked. */
  function MissingNames(required: seq<(string, string)>): (missing: seq<string>)
    ensures |missing| <= |required|
    ensures missing == [] <==> forall i :: 0 <= i < |required| ==> required[i].1 != ""
    ensures forall n :: n in missing ==> exists i :: 0 <= i < |required| && required[i].0 == n && required[i].1 == ""
  {
    if required == [] then []
    else
      (if required[0].1 == "" then [required[0].0] else []) + MissingNames(required[1..])
  }

  /** The names missing from two lists of variables checked one after the
      other are those of the first list followed by those of the second. */
  lemma {:induction false} MissingNamesAppend(a: seq<(string, string)>, b: seq<(string, string)>)
    ensures MissingNames(a + b) == MissingNames(a) + MissingNames(b)
  {
    if a != [] {
      assert (a + b)[1..] == a[1..] + b;
      MissingNamesAppend(a[1..], b);
    } else {
      assert a + b == b;
    }
  }

  /** One variable is reported exactly when it is empty. */
  lemma MissingNamesSingle(v: (string, string))
    ensures MissingNames([v]) == if v.1 == "" then [v.0] else []
  {
    assert [v][1..] == [];
  }

  /** Every required variable that is empty is reported. */
  lemma {:induction false} MissingNamesComplete(required: seq<(string, string)>, i: nat)
    requires i < |required| && required[i].1 == ""
    ensures required[i].0 in MissingNames(required)
  {
    if i > 0 {
      MissingNamesComplete(required[1..], i - 1);
    }
  }

  const EnvErrorPrefix := "environment variables not set correctly. missing: "

  /** The error both validateEnv functions return for a list of missing names. */
  function EnvError(missing: seq<string>): (err: Option<string>)
    ensures err.None? <==> missing == []
    ensures err.Some? ==> StartsWith(err.value, EnvErrorPrefix)
  {
    if missing == [] then None else Some(EnvErrorPrefix + Join(missing, ", "))
  }
}
