/** The header list of OTEL_EXPORTER_OTLP_HEADERS, k=v pairs between commas, and its merge into the configuration. */
module Headers {
  import opened Wrappers

  // ----- strings -----

  /** White space as TrimSpace knows it. */
  predicate IsSpace(c: char) {
    || '\t' <= c <= '\r' || c == ' ' || c == '\U{85}' || c == '\U{A0}' || c == '\U{1680}'
    || '\U{2000}' <= c <= '\U{200A}' || c == '\U{2028}' || c == '\U{2029}' || c == '\U{202F}' || c == '\U{205F}'
      || c == '\U{3000}'
  }

  function TrimLeft(s: string): (r: string)
    ensures r == [] || !IsSpace(r[0])
    ensures |r| <= |s| && r == s[|s| - |r|..] && forall i | 0 <= i < |s| - |r| :: IsSpace(s[i])
  {
    if s != [] && IsSpace(s[0]) then TrimLeft(s[1..]) else s
  }

  function TrimRight(s: string): (r: string)
    ensures r == [] || !IsSpace(r[|r| - 1])
    ensures r <= s && forall i | |r| <= i < |s| :: IsSpace(s[i])
  {
    if s != [] && IsSpace(s[|s| - 1]) then TrimRight(s[..|s| - 1]) else s
  }

  function TrimSpace(s: string): string {
    TrimRight(TrimLeft(s))
  }

  predicate Trimmed(s: string) {
    s == [] || (!IsSpace(s[0]) && !IsSpace(s[|s| - 1]))
  }

  lemma PartOf(s: string, lo: nat, hi: nat)
    requires lo <= hi <= |s|
    ensures forall c | c in s[lo..hi] :: c in s
  {
  }

  /** Trimming cuts off white space and nothing else, at either end and all of it; a trimmed string it leaves alone. */
  lemma TrimTrims(s: string) returns (x: string, y: string)
    ensures s == x + TrimSpace(s) + y && (forall c | c in x :: IsSpace(c)) && (forall c | c in y :: IsSpace(c))
    ensures Trimmed(TrimSpace(s))
    ensures forall c | c in TrimSpace(s) :: c in s
    ensures Trimmed(s) ==> TrimSpace(s) == s
  {
    hide IsSpace, TrimLeft, TrimRight;
    var left := TrimLeft(s);
    var right := TrimRight(left);
    var lo, hi := |s| - |left|, |s| - |left| + |right|;
    x, y := s[..lo], left[|right|..];
    assert left == right + y && s == x + left;
    assert right == s[lo..hi];
    PartOf(s, lo, hi);
  }

  /** The parts of a string that begins with c, given the parts of the rest. */
  function Prepend(c: char, parts: seq<string>, sep: char): seq<string>
    requires |parts| > 0
  {
    if c == sep then [[]] + parts else [[c] + parts[0]] + parts[1..]
  }

  /** The parts between separators; one more than there are separators. */
  function Split(s: string, sep: char): (parts: seq<string>)
    ensures |parts| > 0
  {
    if s == [] then [[]] else Prepend(s[0], Split(s[1..], sep), sep)
  }

  lemma PrependAppend(c: char, x: seq<string>, y: seq<string>, sep: char)
    requires |x| > 0
    ensures Prepend(c, x + y, sep) == Prepend(c, x, sep) + y
  {
    assert (x + y)[1..] == x[1..] + y;
  }

  /** The parts before and after the first separator. */
  function Cut(s: string, sep: char): Option<(string, string)> {
    if s == [] then None
    else if s[0] == sep then Some(([], s[1..]))
    else
      var rest := Cut(s[1..], sep);
      if rest.None? then None else Some(([s[0]] + rest.value.0, rest.value.1))
  }

  lemma {:induction false} SplitAppend(a: string, b: string, sep: char)
    ensures Split(a + [sep] + b, sep) == Split(a, sep) + Split(b, sep)
  {
    if a == [] {
      assert a + [sep] + b == [sep] + b;
    } else {
      SplitAppend(a[1..], b, sep);
      PrependAppend(a[0], Split(a[1..], sep), Split(b, sep), sep);
      hide Prepend;
      assert (a + [sep] + b)[1..] == a[1..] + [sep] + b;
    }
  }

  lemma {:induction false} SplitParts(s: string, sep: char)
    ensures forall p | p in Split(s, sep) :: sep !in p
    ensures sep !in s ==> Split(s, sep) == [s]
  {
    if s != [] {
      SplitParts(s[1..], sep);
      assert s == [s[0]] + s[1..];
    }
  }

  lemma {:induction false} CutParts(s: string, sep: char)
    ensures Cut(s, sep).None? <==> sep !in s
    ensures Cut(s, sep).Some? ==>
              var (x, y) := Cut(s, sep).value;
              sep !in x && s == x + [sep] + y
  {
    if s != [] {
      CutParts(s[1..], sep);
      assert s == [s[0]] + s[1..];
    }
  }

  lemma {:induction false} CutAt(x: string, y: string, sep: char)
    requires sep !in x
    ensures Cut(x + [sep] + y, sep) == Some((x, y))
  {
    if x == [] {
      assert x + [sep] + y == [sep] + y;
    } else {
      CutAt(x[1..], y, sep);
      assert x == [x[0]] + x[1..];
      assert (x + [sep] + y)[1..] == x[1..] + [sep] + y;
    }
  }

  // ----- parsing -----

  /** One pair laid over the headers so far; one without = leaves them as they are. */
  function Put(headers: map<string, string>, pair: string): map<string, string> {
    var kv := Cut(pair, '=');
    if kv.None? then headers else headers[TrimSpace(kv.value.0) := TrimSpace(kv.value.1)]
  }

  function PutAll(pairs: seq<string>): map<string, string> {
    if pairs == [] then map[] else Put(PutAll(pairs[..|pairs| - 1]), pairs[|pairs| - 1])
  }

  function Parsed(s: string): map<string, string> {
    PutAll(Split(s, ','))
  }

  method ParseHeaders(s: string) returns (out: map<string, string>)
    ensures out == Parsed(s)
  {
    out := map[];
    var pairs := Split(s, ',');
    for i := 0 to |pairs|
      invariant out == PutAll(pairs[..i])
    {
      assert pairs[..i + 1][..i] == pairs[..i];
      var kv := Cut(pairs[i], '=');
      if kv.None? { continue; }
      out := out[TrimSpace(kv.value.0) := TrimSpace(kv.value.1)];
    }
    assert pairs[..|pairs|] == pairs;
  }

  lemma PutOver(m: map<string, string>, n: map<string, string>, pair: string)
    ensures Put(m + n, pair) == m + Put(n, pair)
  {
    hide Cut, TrimSpace;
  }

  lemma {:induction false} PutAllAppend(p: seq<string>, q: seq<string>)
    ensures PutAll(p + q) == PutAll(p) + PutAll(q)
  {
    if q == [] {
      assert p + q == p;
    } else {
      hide Put;
      var less, last := q[..|q| - 1], q[|q| - 1];
      PutAllAppend(p, less);
      PutOver(PutAll(p), PutAll(less), last);
      assert (p + q)[..|p + q| - 1] == p + less;
      assert (p + q)[|p + q| - 1] == last;
    }
  }

  /** Parsing is a homomorphism: two lists joined by a comma parse to the first overlaid by the second. */
  lemma ParsedJoined(a: string, b: string)
    ensures Parsed(a + "," + b) == Parsed(a) + Parsed(b)
  {
    SplitAppend(a, b, ',');
    PutAllAppend(Split(a, ','), Split(b, ','));
  }

  /** A piece without = changes nothing, wherever it stands. */
  lemma MalformedIgnored(a: string, bad: string, b: string)
    requires '=' !in bad
    ensures Parsed(bad) == map[]
    ensures Parsed(a + "," + bad + "," + b) == Parsed(a + "," + b)
  {
    NothingIn(bad);
    ParsedJoined(a, bad);
    ParsedJoined(a + "," + bad, b);
    ParsedJoined(a, b);
  }

  lemma SplitChars(s: string, sep: char, c: char)
    requires c !in s
    ensures forall p | p in Split(s, sep) :: c !in p
  {
  }

  lemma {:induction false} NoPairs(pairs: seq<string>)
    requires forall p | p in pairs :: '=' !in p
    ensures PutAll(pairs) == map[]
  {
    if pairs != [] {
      NoPairs(pairs[..|pairs| - 1]);
      CutParts(pairs[|pairs| - 1], '=');
    }
  }

  lemma NothingIn(bad: string)
    requires '=' !in bad
    ensures Parsed(bad) == map[]
  {
    SplitChars(bad, ',', '=');
    NoPairs(Split(bad, ','));
  }

  // ----- printing -----

  function Pair(k: string, v: string): string {
    k + "=" + v
  }

  /** The headers as a list, in the order of keys. */
  function Print(m: map<string, string>, keys: seq<string>): string
    requires forall k | k in keys :: k in m
  {
    if keys == [] then ""
    else if |keys| == 1 then Pair(keys[0], m[keys[0]])
    else Print(m, keys[..|keys| - 1]) + "," + Pair(keys[|keys| - 1], m[keys[|keys| - 1]])
  }

  predicate GoodKey(k: string) { Trimmed(k) && ',' !in k && '=' !in k }

  predicate GoodValue(v: string) { Trimmed(v) && ',' !in v }

  /** What a header list can say: trimmed keys without comma and =, trimmed values without comma. */
  ghost predicate Printable(m: map<string, string>) {
    forall k | k in m :: GoodKey(k) && GoodValue(m[k])
  }

  lemma PutAllOne(pair: string)
    ensures PutAll([pair]) == Put(map[], pair)
  {
    var one := [pair];
    assert one[..|one| - 1] == [] && one[|one| - 1] == pair;
    hide Put;
  }

  /** One pair by itself: what is before the first = and what is after, each trimmed. */
  lemma PieceParsed(x: string, y: string)
    requires ',' !in x && '=' !in x && ',' !in y
    ensures Parsed(x + "=" + y) == map[TrimSpace(x) := TrimSpace(y)]
  {
    SplitParts(x + "=" + y, ',');
    PutAllOne(x + "=" + y);
    CutAt(x, y, '=');
    hide Split, PutAll, Cut, TrimSpace;
  }

  lemma PairParsed(k: string, v: string)
    requires GoodKey(k) && GoodValue(v)
    ensures Parsed(Pair(k, v)) == map[k := v]
  {
    PieceParsed(k, v);
    var kx, ky := TrimTrims(k);
    var vx, vy := TrimTrims(v);
    hide Parsed, TrimSpace, Trimmed;
  }

  lemma {:induction false} PrintParsed(m: map<string, string>, keys: seq<string>)
    requires Printable(m) && forall k | k in keys :: k in m
    ensures Parsed(Print(m, keys)) == map k | k in keys :: m[k]
  {
    if keys == [] {
      NothingIn("");
    } else {
      var less, last := keys[..|keys| - 1], keys[|keys| - 1];
      assert keys == less + [last];
      PairParsed(last, m[last]);
      if less != [] {
        PrintParsed(m, less);
        ParsedJoined(Print(m, less), Pair(last, m[last]));
      }
      hide Parsed, Pair;
    }
  }

  lemma Without(s: string, x: string, sep: char, y: string, c: char)
    requires s == x + [sep] + y && c !in s
    ensures c !in x && c !in y
  {
    assert forall d | d in x :: d in s;
    assert forall d | d in y :: d in s;
  }

  lemma TrimKeepsOut(s: string, c: char)
    requires c !in s
    ensures c !in TrimSpace(s) && Trimmed(TrimSpace(s))
  {
    var x, y := TrimTrims(s);
  }

  lemma CutTrimmed(pair: string)
    requires ',' !in pair && Cut(pair, '=').Some?
    ensures GoodKey(TrimSpace(Cut(pair, '=').value.0)) && GoodValue(TrimSpace(Cut(pair, '=').value.1))
  {
    hide TrimSpace, Trimmed, Cut;
    CutParts(pair, '=');
    var (x, y) := Cut(pair, '=').value;
    Without(pair, x, '=', y, ',');
    TrimKeepsOut(x, ',');
    TrimKeepsOut(x, '=');
    TrimKeepsOut(y, ',');
  }

  lemma PrintablePut(m: map<string, string>, k: string, v: string)
    requires Printable(m) && GoodKey(k) && GoodValue(v)
    ensures Printable(m[k := v])
  {
    hide GoodKey, GoodValue;
  }

  lemma PutPrintable(m: map<string, string>, pair: string)
    requires Printable(m) && ',' !in pair
    ensures Printable(Put(m, pair))
  {
    hide TrimSpace, Cut, GoodKey, GoodValue, Printable;
    if Cut(pair, '=').Some? {
      CutTrimmed(pair);
      PrintablePut(m, TrimSpace(Cut(pair, '=').value.0), TrimSpace(Cut(pair, '=').value.1));
    }
  }

  lemma {:induction false} PutAllPrintable(pairs: seq<string>)
    requires forall p | p in pairs :: ',' !in p
    ensures Printable(PutAll(pairs))
  {
    if pairs != [] {
      hide Printable, Put;
      PutAllPrintable(pairs[..|pairs| - 1]);
      PutPrintable(PutAll(pairs[..|pairs| - 1]), pairs[|pairs| - 1]);
    } else {
      assert Printable(map[]);
    }
  }

  /** Whatever is parsed can be printed. */
  lemma ParsedPrintable(s: string)
    ensures Printable(Parsed(s))
  {
    SplitParts(s, ',');
    PutAllPrintable(Split(s, ','));
  }

  /** Printing and parsing again gives the headers back exactly when they are printable, whatever the order and even
      with keys repeated. */
  lemma PrintParses(m: map<string, string>, keys: seq<string>)
    requires forall k :: k in keys <==> k in m
    ensures Parsed(Print(m, keys)) == m <==> Printable(m)
  {
    ParsedPrintable(Print(m, keys));
    if Printable(m) { PrintParsed(m, keys); }
  }

  /** ... so every list, however malformed, means the same as the list printed of what it parses to. */
  lemma ReprintParses(s: string, keys: seq<string>)
    requires forall k :: k in keys <==> k in Parsed(s)
    ensures Parsed(Print(Parsed(s), keys)) == Parsed(s)
  {
    ParsedPrintable(s);
    PrintParses(Parsed(s), keys);
  }

  // ----- the environment -----

  /** The OTLP block; no headers and an empty map of them are the same. */
  class OTLPConfig {
    var endpoint: string
    var protocol: string
    var headers: map<string, string>

    constructor ()
      ensures endpoint == "" && protocol == "grpc" && headers == map[]
    {
      endpoint, protocol, headers := "", "grpc", map[];
    }
  }

  datatype Environment = Environment(serviceName: string, endpoint: string, protocol: string, headers: string)

  class Config {
    var operatorName: string
    var otlp: OTLPConfig?

    constructor (operatorName: string, otlp: OTLPConfig?)
      ensures this.operatorName == operatorName && this.otlp == otlp
    {
      this.operatorName, this.otlp := operatorName, otlp;
    }

    function Headers(): map<string, string>
      reads this, otlp
    {
      if otlp == null then map[] else otlp.headers
    }

    /** A variable that is set wins; the headers it does not name stay as they were. A block appears only when one of
        its variables is set. */
    method ApplyEnvOverrides(env: Environment)
      modifies this, otlp
      ensures operatorName == if env.serviceName != "" then env.serviceName else old(operatorName)
      ensures old(otlp) != null ==> otlp == old(otlp)
      ensures otlp != null && otlp != old(otlp) ==> fresh(otlp)
      ensures old(otlp) == null ==> (otlp == null <==> env.endpoint == "" && env.protocol == "" && env.headers == "")
      ensures forall k | k in Parsed(env.headers) :: k in Headers() && Headers()[k] == Parsed(env.headers)[k]
      ensures forall k | k !in Parsed(env.headers) :: k in Headers() <==> k in old(Headers())
      ensures forall k | k !in Parsed(env.headers) && k in Headers() :: Headers()[k] == old(Headers())[k]
      ensures otlp != null ==>
              otlp.endpoint ==
              if env.endpoint != "" then env.endpoint else if old(otlp) != null then old(otlp.endpoint) else ""
      ensures otlp != null ==>
              otlp.protocol ==
              if env.protocol != "" then env.protocol else if old(otlp) != null then old(otlp.protocol) else "grpc"
    {
      NothingIn("");
      if env.serviceName != "" { operatorName := env.serviceName; }
      if env.endpoint != "" || env.protocol != "" || env.headers != "" {
        if otlp == null { otlp := new OTLPConfig(); }
        if env.endpoint != "" { otlp.endpoint := env.endpoint; }
        if env.protocol != "" { otlp.protocol := env.protocol; }
        if env.headers != "" {
          var parsed := ParseHeaders(env.headers);
          otlp.headers := otlp.headers + parsed;
        }
      }
    }
  }
}
