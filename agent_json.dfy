/** How every agent cuts the JSON object out of a model reply before `json.loads`:
    from the first `{` to the last `}`, or the whole reply when there is no such pair. */
module AgentJson {
  import opened Wrappers
  import PyJson

  /** `s.find(c)`: the first index of `c`, or -1. */
  function Find(s: string, c: char): (r: int)
    ensures -1 <= r < |s|
    ensures r == -1 <==> c !in s
    ensures r >= 0 ==> s[r] == c && c !in s[..r]
  {
    if s == [] then -1
    else if s[0] == c then 0
    else
      var k := Find(s[1..], c);
      if k == -1 then -1
      else
        assert s[..k + 1] == [s[0]] + s[1..][..k];
        k + 1
  }

  /** `s.rfind(c)`: the last index of `c`, or -1. */
  function RFind(s: string, c: char): (r: int)
    ensures -1 <= r < |s|
    ensures r == -1 <==> c !in s
    ensures r >= 0 ==> s[r] == c && c !in s[r + 1..]
  {
    if s == [] then -1
    else if s[|s| - 1] == c then |s| - 1
    else
      var k := RFind(s[..|s| - 1], c);
      assert s[k + 1..] == s[..|s| - 1][k + 1..] + [s[|s| - 1]];
      k
  }

  /** The text handed to `json.loads`: `reply[start:end]` with `start = reply.find('{')` and
      `end = reply.rfind('}') + 1` when `start >= 0 and end > start`, else the whole reply. */
  function JsonCandidate(reply: string): (r: string)
    ensures var start := Find(reply, '{');
            var end := RFind(reply, '}') + 1;
            if start >= 0 && end > start then
              r == reply[start..end] && r[0] == '{' && r[|r| - 1] == '}'
              && '{' !in reply[..start] && '}' !in reply[end..]
            else r == reply
  {
    var start := Find(reply, '{');
    var end := RFind(reply, '}') + 1;
    if start >= 0 && end > start then reply[start..end] else reply
  }

  /** A reply made of an object between a prefix without `{` and a suffix without `}`
      yields exactly that object. */
  lemma {:induction false} CandidateExtracts(prefix: string, obj: string, suffix: string)
    requires |obj| >= 1 && obj[0] == '{' && obj[|obj| - 1] == '}'
    requires '{' !in prefix && '}' !in suffix
    ensures JsonCandidate(prefix + obj + suffix) == obj
  {
    var s := prefix + obj + suffix;
    FindAfter(prefix, obj + suffix, '{');
    assert s == prefix + (obj + suffix);
    RFindBefore(prefix + obj, suffix, '}');
    assert s[|prefix|..|prefix| + |obj|] == obj;
  }

  lemma {:induction false} FindAfter(a: string, b: string, c: char)
    requires c !in a && b != [] && b[0] == c
    ensures Find(a + b, c) == |a|
  {
    var s := a + b;
    assert s[|a|] == c;
    assert s[..|a|] == a;
    assert forall i :: 0 <= i < |a| ==> s[i] == a[i];
    var k := Find(s, c);
    assert k <= |a| ==> s[..k] == a[..k];
  }

  lemma {:induction false} RFindBefore(a: string, b: string, c: char)
    requires c !in b && a != [] && a[|a| - 1] == c
    ensures RFind(a + b, c) == |a| - 1
  {
    var s := a + b;
    assert s[|a| - 1] == c;
    assert s[|a|..] == b;
    assert forall i :: |a| <= i < |s| ==> s[i] == b[i - |a|];
  }

  /** Cutting the candidate out of a candidate changes nothing. */
  lemma CandidateIdempotent(reply: string)
    ensures JsonCandidate(JsonCandidate(reply)) == JsonCandidate(reply)
  {
    var r := JsonCandidate(reply);
    var start := Find(reply, '{');
    var end := RFind(reply, '}') + 1;
    if start >= 0 && end > start {
      assert '{' !in reply[..start] && '}' !in reply[end..];
      CandidateExtracts([], r, []);
      assert [] + r + [] == r;
    }
  }

  /** The object `json.loads` returns for the candidate, or `None` when it raises `JSONDecodeError`. */
  function ParseReply(reply: string, parse: string -> Option<PyJson.Json>): Option<PyJson.Json>
  {
    parse(JsonCandidate(reply))
  }
}
