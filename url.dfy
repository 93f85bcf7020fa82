/** The address of one registry lookup: the endpoint followed by a query
    string of fourteen `name=value` parameters joined by '&'. Six values
    come from the search fields, two from the page size and offset, one pins
    the API version and the rest are left empty. The field values are
    written into the query string as they are, without URL encoding.

    To say what the query string carries, the module also reads one back:
    split at every '&', then each parameter at its first '='. This reader
    does no form decoding ('+', '%xx') and knows no '#' fragment. */
module Url {
  import opened Text
  import opened Query

  /** The registry's lookup endpoint, up to the start of the query string. */
  const Endpoint: string := "https://npiregistry.cms.hhs.gov/api/?"

  /** The API version every lookup asks for. */
  const Version: string := "2.0"

  /** The parameter names, in the order the query string lists them. */
  const ParamNames: seq<string> := [
    "number", "enumeration_type", "taxonomy_description", "first_name",
    "last_name", "organization_name", "address_purpose", "city", "state",
    "postal_code", "country_code", "limit", "skip", "version"]

  datatype Param = Param(name: string, value: string)

  /** The parameters of a lookup for the given fields, page size and
      offset. */
  function QueryParams(p: SearchParams, limit: int, skip: int): (r: seq<Param>)
    ensures |r| == |ParamNames|
    ensures forall i :: 0 <= i < |r| ==> r[i].name == ParamNames[i]
    ensures r[0].value == p.number && r[3].value == p.firstName && r[4].value == p.lastName
    ensures r[5].value == p.organization && r[7].value == p.city && r[8].value == p.state
    ensures r[11].value == IntToDecimal(limit) && r[12].value == IntToDecimal(skip)
    ensures r[13].value == Version
    ensures r[1].value == "" && r[2].value == "" && r[6].value == ""
    ensures r[9].value == "" && r[10].value == ""
  {
    [Param("number", p.number), Param("enumeration_type", ""),
     Param("taxonomy_description", ""), Param("first_name", p.firstName),
     Param("last_name", p.lastName), Param("organization_name", p.organization),
     Param("address_purpose", ""), Param("city", p.city), Param("state", p.state),
     Param("postal_code", ""), Param("country_code", ""),
     Param("limit", IntToDecimal(limit)), Param("skip", IntToDecimal(skip)),
     Param("version", Version)]
  }

  function Field(q: Param): string
  {
    q.name + "=" + q.value
  }

  /** The parameters written one after another, separated by '&'. */
  function Join(ps: seq<Param>): string
  {
    if ps == [] then ""
    else if |ps| == 1 then Field(ps[0])
    else Field(ps[0]) + "&" + Join(ps[1..])
  }

  /** The URL GetLookupResults requests. */
  function LookupUrl(p: SearchParams, limit: int, skip: int): (u: string)
    ensures |u| > |Endpoint| && u[..|Endpoint|] == Endpoint
    ensures u[|Endpoint|..] == Join(QueryParams(p, limit, skip))
  {
    Endpoint + Join(QueryParams(p, limit, skip))
  }

  // ---------------------------------------------------------------------------
  // Reading a query string back

  /** The pieces of `s` between occurrences of `c`. */
  function Split(s: string, c: char): (r: seq<string>)
    ensures |r| == CountChar(s, c) + 1
  {
    if s == [] then [""]
    else
      var rest := Split(s[1..], c);
      if s[0] == c then [""] + rest else [[s[0]] + rest[0]] + rest[1..]
  }

  /** One parameter, split at its first '='. */
  function ParseParam(f: string): Param
  {
    if f == [] then Param("", "")
    else if f[0] == '=' then Param("", f[1..])
    else
      var q := ParseParam(f[1..]);
      Param([f[0]] + q.name, q.value)
  }

  /** The parameters a query string carries: one per '&'-separated piece. */
  function ParseQuery(s: string): (ps: seq<Param>)
    ensures |ps| == CountChar(s, '&') + 1
  {
    var fields := Split(s, '&');
    seq(|fields|, i requires 0 <= i < |fields| => ParseParam(fields[i]))
  }

  lemma {:induction false} SplitWithout(a: string, c: char)
    requires c !in a
    ensures Split(a, c) == [a]
  {
    if a != [] {
      SplitWithout(a[1..], c);
      assert [a[0]] + a[1..] == a;
    }
  }

  /** A piece without the separator comes out whole, followed by the pieces
      of what comes after the separator. */
  lemma {:induction false} SplitAfter(a: string, b: string, c: char)
    requires c !in a
    ensures Split(a + [c] + b, c) == [a] + Split(b, c)
  {
    if a == [] {
      assert a + [c] + b == [c] + b;
      assert ([c] + b)[1..] == b;
    } else {
      SplitAfter(a[1..], b, c);
      assert (a + [c] + b)[1..] == a[1..] + [c] + b;
      assert [a[0]] + a[1..] == a;
    }
  }

  lemma {:induction false} ParseField(q: Param)
    requires '=' !in q.name
    ensures ParseParam(Field(q)) == q
    decreases |q.name|
  {
    if q.name == [] {
      assert Field(q) == ['='] + q.value;
      assert Field(q)[1..] == q.value;
    } else {
      var rest := Param(q.name[1..], q.value);
      ParseField(rest);
      assert Field(q)[1..] == Field(rest);
      assert [q.name[0]] + q.name[1..] == q.name;
    }
  }

  /** The parameters a query string can carry intact: names without '&' or
      '=', values without '&'. */
  predicate Plain(ps: seq<Param>)
  {
    forall i :: 0 <= i < |ps| ==> '&' !in ps[i].name && '=' !in ps[i].name && '&' !in ps[i].value
  }

  /** Reading back a query string of plain parameters gives the parameters
      that were written. */
  lemma {:induction false} JoinRoundTrip(ps: seq<Param>)
    requires ps != [] && Plain(ps)
    ensures ParseQuery(Join(ps)) == ps
  {
    SplitJoin(ps);
    forall i | 0 <= i < |ps| ensures ParseQuery(Join(ps))[i] == ps[i] {
      ParseField(ps[i]);
    }
  }

  lemma {:induction false} SplitJoin(ps: seq<Param>)
    requires ps != [] && Plain(ps)
    ensures Split(Join(ps), '&') == seq(|ps|, i requires 0 <= i < |ps| => Field(ps[i]))
  {
    var f := Field(ps[0]);
    assert '&' !in f by {
      assert forall k :: 0 <= k < |f| ==> f[k] in ps[0].name || f[k] == '=' || f[k] in ps[0].value;
    }
    if |ps| == 1 {
      SplitWithout(f, '&');
    } else {
      SplitJoin(ps[1..]);
      SplitAfter(f, Join(ps[1..]), '&');
    }
  }

  lemma NumeralPlain(i: int)
    ensures '&' !in IntToDecimal(i)
  {
    var r := IntToDecimal(i);
    forall k | 0 <= k < |r| ensures r[k] != '&' {
      if i < 0 && k > 0 {
        assert r[k] == r[1..][k - 1];
      }
    }
  }

  lemma ParamNamesPlain()
    ensures forall i :: 0 <= i < |ParamNames| ==> '&' !in ParamNames[i] && '=' !in ParamNames[i]
  {
  }

  /** The parameters of a lookup are plain when the six fields are. */
  lemma QueryParamsPlain(p: SearchParams, limit: int, skip: int)
    requires '&' !in p.number && '&' !in p.firstName && '&' !in p.lastName
    requires '&' !in p.city && '&' !in p.state && '&' !in p.organization
    ensures Plain(QueryParams(p, limit, skip))
  {
    var ps := QueryParams(p, limit, skip);
    ParamNamesPlain();
    NumeralPlain(limit);
    NumeralPlain(skip);
    var values := {p.number, "", p.firstName, p.lastName, p.organization, p.city, p.state,
                   IntToDecimal(limit), IntToDecimal(skip), Version};
    assert forall i :: 0 <= i < |ps| ==> ps[i].value in values;
  }

  /** When no search field contains '&', the reader `ParseQuery` reads back
      exactly the fourteen parameters of the lookup, with the fields' values. */
  lemma QueryRoundTrip(p: SearchParams, limit: int, skip: int)
    requires forall f :: '&' !in Get(p, f)
    ensures ParseQuery(Join(QueryParams(p, limit, skip))) == QueryParams(p, limit, skip)
  {
    var ps := QueryParams(p, limit, skip);
    assert '&' !in Get(p, Number) && '&' !in Get(p, FirstName) && '&' !in Get(p, LastName);
    assert '&' !in Get(p, City) && '&' !in Get(p, State) && '&' !in Get(p, Organization);
    QueryParamsPlain(p, limit, skip);
    JoinRoundTrip(ps);
  }

  // ---------------------------------------------------------------------------
  // A search field holding '&'

  lemma {:induction false} CountCharPresent(s: string, c: char)
    requires c in s
    ensures CountChar(s, c) > 0
  {
    if s[0] != c {
      CountCharPresent(s[1..], c);
    }
  }

  /** Each separator and each '&' inside a value adds to the count. */
  lemma {:induction false} JoinAmpersands(ps: seq<Param>, k: nat)
    requires k < |ps|
    ensures CountChar(Join(ps), '&') >= |ps| - 1 + CountChar(ps[k].value, '&')
  {
    var f := Field(ps[0]);
    CountCharConcat(ps[0].name + "=", ps[0].value, '&');
    if |ps| > 1 {
      CountCharConcat(f, "&", '&');
      CountCharConcat(f + "&", Join(ps[1..]), '&');
      if k == 0 {
        JoinAmpersands(ps[1..], 0);
      } else {
        JoinAmpersands(ps[1..], k - 1);
      }
    }
  }

  /** No piece of a split holds the separator. */
  lemma {:induction false} SplitPiecesWithout(s: string, c: char)
    ensures forall i :: 0 <= i < |Split(s, c)| ==> c !in Split(s, c)[i]
  {
    if s != [] {
      SplitPiecesWithout(s[1..], c);
    }
  }

  /** The value read from a piece is a part of that piece. */
  lemma {:induction false} ParseParamValueWithout(f: string, c: char)
    requires c !in f
    ensures c !in ParseParam(f).value
  {
    if f != [] && f[0] != '=' {
      ParseParamValueWithout(f[1..], c);
    }
  }

  /** No value read back from a query string holds '&'. */
  lemma ParsedValuesWithoutAmpersand(s: string)
    ensures forall i :: 0 <= i < |ParseQuery(s)| ==> '&' !in ParseQuery(s)[i].value
  {
    SplitPiecesWithout(s, '&');
    forall i | 0 <= i < |ParseQuery(s)| ensures '&' !in ParseQuery(s)[i].value {
      ParseParamValueWithout(Split(s, '&')[i], '&');
    }
  }

  /** As written: an organization name holding '&' (say "A&B") makes the
      query string read back through `ParseQuery` as more than fourteen
      parameters, and the organization parameter read back is not the
      organization name. */
  lemma AmpersandSplitsQuery(p: SearchParams, limit: int, skip: int)
    requires '&' in p.organization
    ensures |ParseQuery(Join(QueryParams(p, limit, skip)))| > |ParamNames|
    ensures ParseQuery(Join(QueryParams(p, limit, skip)))[5] != QueryParams(p, limit, skip)[5]
  {
    CountCharPresent(p.organization, '&');
    JoinAmpersands(QueryParams(p, limit, skip), 5);
    ParsedValuesWithoutAmpersand(Join(QueryParams(p, limit, skip)));
  }

  // ---------------------------------------------------------------------------
  // Percent-encoding the values

  /** A value with '%' written "%25" and '&' written "%26". */
  function Escape(s: string): (r: string)
    ensures '&' !in r
  {
    if s == [] then ""
    else if s[0] == '%' then "%25" + Escape(s[1..])
    else if s[0] == '&' then "%26" + Escape(s[1..])
    else [s[0]] + Escape(s[1..])
  }

  /** The value an escaped text stands for. */
  function Unescape(s: string): string
  {
    if s == [] then ""
    else if |s| >= 3 && s[..3] == "%25" then "%" + Unescape(s[3..])
    else if |s| >= 3 && s[..3] == "%26" then "&" + Unescape(s[3..])
    else [s[0]] + Unescape(s[1..])
  }

  lemma {:induction false} EscapeRoundTrip(s: string)
    ensures Unescape(Escape(s)) == s
  {
    if s != [] {
      EscapeRoundTrip(s[1..]);
      var e := Escape(s);
      if s[0] == '%' {
        assert e[..3] == "%25" && e[3..] == Escape(s[1..]);
      } else if s[0] == '&' {
        assert e[..3] == "%26" && e[3..] == Escape(s[1..]);
      } else {
        assert e[0] == s[0] && e[1..] == Escape(s[1..]);
      }
      assert [s[0]] + s[1..] == s;
    }
  }

  function EscapeValues(ps: seq<Param>): (r: seq<Param>)
    ensures |r| == |ps|
    ensures forall i :: 0 <= i < |ps| ==> r[i] == Param(ps[i].name, Escape(ps[i].value))
  {
    seq(|ps|, i requires 0 <= i < |ps| => Param(ps[i].name, Escape(ps[i].value)))
  }

  function UnescapeValues(ps: seq<Param>): (r: seq<Param>)
    ensures |r| == |ps|
    ensures forall i :: 0 <= i < |ps| ==> r[i] == Param(ps[i].name, Unescape(ps[i].value))
  {
    seq(|ps|, i requires 0 <= i < |ps| => Param(ps[i].name, Unescape(ps[i].value)))
  }

  /** The lookup URL with every value percent-encoded. */
  function EscapedLookupUrl(p: SearchParams, limit: int, skip: int): (u: string)
    ensures |u| >= |Endpoint| && u[..|Endpoint|] == Endpoint
  {
    Endpoint + Join(EscapeValues(QueryParams(p, limit, skip)))
  }

  /** Corrected: with the values escaped, the reader `ParseQuery` followed by
      `Unescape` reads back exactly the fourteen parameters of the lookup,
      whatever the search fields hold. */
  lemma EscapedQueryRoundTrip(p: SearchParams, limit: int, skip: int)
    ensures |Endpoint| <= |EscapedLookupUrl(p, limit, skip)|
    ensures UnescapeValues(ParseQuery(EscapedLookupUrl(p, limit, skip)[|Endpoint|..]))
            == QueryParams(p, limit, skip)
  {
    var ps := QueryParams(p, limit, skip);
    var es := EscapeValues(ps);
    assert EscapedLookupUrl(p, limit, skip)[|Endpoint|..] == Join(es);
    ParamNamesPlain();
    assert Plain(es);
    JoinRoundTrip(es);
    forall i | 0 <= i < |ps| ensures UnescapeValues(es)[i] == ps[i] {
      EscapeRoundTrip(ps[i].value);
    }
  }
}
