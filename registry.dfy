/**
 * The webhook registry's records, identifier syntax, and the document-store
 * updates the service applies to it: point lookup by id, `$addToSet` with
 * `$each` on a webhook's endpoints, and `$pull` of endpoints by id.
 */
module Registry {
  import opened Options

  datatype Endpoint = Endpoint(endpointId: string, url: string)

  datatype Webhook = Webhook(id: string, customerId: string, webhookUrl: string, endpoints: seq<Endpoint>)

  predicate IsHexDigit(c: char)
  {
    '0' <= c <= '9' || 'a' <= c <= 'f' || 'A' <= c <= 'F'
  }

  /** The value of one hex digit, either case. */
  function HexValue(c: char): (v: nat)
    requires IsHexDigit(c)
    ensures v < 16
  {
    if '0' <= c <= '9' then c as int - '0' as int
    else if 'a' <= c <= 'f' then c as int - 'a' as int + 10
    else c as int - 'A' as int + 10
  }

  /**
   * Hex decoding as `bytes.fromhex` does it on whitespace-free input: pairs
   * of hex digits, either case, become bytes; an odd length or a non-hex
   * character fails.
   */
  function FromHex(s: string): Option<seq<nat>>
    decreases |s|
  {
    if |s| == 0 then Some([])
    else if |s| == 1 || !IsHexDigit(s[0]) || !IsHexDigit(s[1]) then None
    else match FromHex(s[2..])
      case None => None
      case Some(rest) => Some([HexValue(s[0]) * 16 + HexValue(s[1])] + rest)
  }

  /** Decoding succeeds exactly on an even number of hex digits, giving half as many bytes. */
  lemma {:induction false} FromHexDefined(s: string)
    ensures FromHex(s).Some? <==> |s| % 2 == 0 && forall i :: 0 <= i < |s| ==> IsHexDigit(s[i])
    ensures FromHex(s).Some? ==> |FromHex(s).value| == |s| / 2
    decreases |s|
  {
    if |s| >= 2 {
      var rest := s[2..];
      FromHexDefined(rest);
      assert forall i :: 2 <= i < |s| ==> s[i] == rest[i - 2];
      if IsHexDigit(s[0]) && IsHexDigit(s[1]) && (forall i :: 0 <= i < |rest| ==> IsHexDigit(rest[i])) {
        assert forall i :: 0 <= i < |s| ==> IsHexDigit(s[i]);
      }
    } else if |s| == 1 {
      assert |s| % 2 == 1;
    }
  }

  /** A byte's two hex digits are determined by the byte. */
  lemma ByteDigits(a: nat, b: nat, c: nat, d: nat)
    requires a < 16 && b < 16 && c < 16 && d < 16
    ensures a * 16 + b == c * 16 + d <==> a == c && b == d
  {
    if a < c {
      assert a * 16 + b < (a + 1) * 16 <= c * 16;
    } else if c < a {
      assert c * 16 + d < (c + 1) * 16 <= a * 16;
    }
  }

  /** Two hex strings of equal length decode alike exactly when their digits have the same values. */
  lemma {:induction false} FromHexSame(s: string, t: string)
    requires |s| == |t| && |s| % 2 == 0
    requires forall i :: 0 <= i < |s| ==> IsHexDigit(s[i]) && IsHexDigit(t[i])
    ensures FromHex(s) == FromHex(t) <==> forall i :: 0 <= i < |s| ==> HexValue(s[i]) == HexValue(t[i])
    decreases |s|
  {
    if |s| >= 2 {
      var rs, rt := s[2..], t[2..];
      assert forall i :: 0 <= i < |rs| ==> rs[i] == s[i + 2] && rt[i] == t[i + 2];
      FromHexSame(rs, rt);
      FromHexDefined(rs);
      FromHexDefined(rt);
      ByteDigits(HexValue(s[0]), HexValue(s[1]), HexValue(t[0]), HexValue(t[1]));
      var bs, bt := HexValue(s[0]) * 16 + HexValue(s[1]), HexValue(t[0]) * 16 + HexValue(t[1]);
      assert FromHex(s) == Some([bs] + FromHex(rs).value);
      assert FromHex(t) == Some([bt] + FromHex(rt).value);
      if FromHex(s) == FromHex(t) {
        assert ([bs] + FromHex(rs).value)[0] == bs;
        assert ([bt] + FromHex(rt).value)[0] == bt;
        assert FromHex(rs).value == ([bs] + FromHex(rs).value)[1..];
        assert FromHex(rt).value == ([bt] + FromHex(rt).value)[1..];
      }
    }
  }

  /** A string an ObjectId can be built from: exactly 24 hex digits, either case. */
  predicate ValidId(s: string)
  {
    |s| == 24 && forall i :: 0 <= i < |s| ==> IsHexDigit(s[i])
  }

  /** The valid ids are exactly the 24-character strings that hex-decode, and they decode to 12 bytes. */
  lemma ValidIdDecodes(s: string)
    ensures ValidId(s) <==> |s| == 24 && FromHex(s).Some?
    ensures ValidId(s) ==> |FromHex(s).value| == 12
  {
    FromHexDefined(s);
  }

  /** The string form of an ObjectId: 24 lower-case hex digits. */
  predicate IsObjectIdString(s: string)
  {
    |s| == 24 && forall i :: 0 <= i < |s| ==> '0' <= s[i] <= '9' || 'a' <= s[i] <= 'f'
  }

  function Lower(c: char): char
  {
    if 'A' <= c <= 'F' then (c as int + 32) as char else c
  }

  /**
   * The string form of the ObjectId that a valid id string denotes: the
   * lower-case digits with the same values, position by position.
   */
  function Canonical(s: string): (k: string)
    requires ValidId(s)
    ensures IsObjectIdString(k) && |k| == |s|
    ensures forall i :: 0 <= i < |s| ==> HexValue(k[i]) == HexValue(s[i])
    ensures IsObjectIdString(s) ==> k == s
  {
    seq(|s|, i requires 0 <= i < |s| => Lower(s[i]))
  }

  /**
   * Two valid id strings have the same canonical form exactly when they
   * denote the same 12 bytes, that is, the same ObjectId, whatever their case.
   */
  lemma CanonicalIdentifies(s: string, t: string)
    requires ValidId(s) && ValidId(t)
    ensures Canonical(s) == Canonical(t) <==> FromHex(s) == FromHex(t)
  {
    var ks, kt := Canonical(s), Canonical(t);
    FromHexSame(s, t);
    if forall i :: 0 <= i < |s| ==> HexValue(s[i]) == HexValue(t[i]) {
      forall i | 0 <= i < |s|
        ensures ks[i] == kt[i]
      {
        LowerDigitByValue(ks[i], kt[i]);
      }
    }
  }

  /** A lower-case hex digit is determined by its value. */
  lemma LowerDigitByValue(a: char, b: char)
    requires '0' <= a <= '9' || 'a' <= a <= 'f'
    requires '0' <= b <= '9' || 'a' <= b <= 'f'
    ensures HexValue(a) == HexValue(b) ==> a == b
  {
  }

  /** The message of the driver's error for a malformed id: the rejected string in quotes, then the reason. */
  function InvalidIdMessage(s: string): (m: string)
    ensures |m| == |s| + |InvalidIdSuffix| + 1
    ensures m[0] == '\'' && m[1..|s| + 1] == s && m[|s| + 1..] == InvalidIdSuffix
  {
    "'" + s + InvalidIdSuffix
  }

  const InvalidIdSuffix := "' is not a valid ObjectId, it must be a 12-byte input or a 24-character hex string"

  /** Identifiers as the id generator hands them out: well-formed, pairwise distinct, never used before. */
  predicate FreshIds(ids: seq<string>, used: set<string>)
  {
    && (forall k :: 0 <= k < |ids| ==> IsObjectIdString(ids[k]) && ids[k] !in used)
    && (forall j, k :: 0 <= j < k < |ids| ==> ids[j] != ids[k])
  }

  predicate Distinct<T(==)>(s: seq<T>)
  {
    forall j, k :: 0 <= j < k < |s| ==> s[j] != s[k]
  }

  function Urls(endpoints: seq<Endpoint>): (r: seq<string>)
    ensures |r| == |endpoints|
    ensures forall k :: 0 <= k < |r| ==> r[k] == endpoints[k].url
  {
    seq(|endpoints|, k requires 0 <= k < |endpoints| => endpoints[k].url)
  }

  /** The webhook stored under `id`, if any (`find_one` on `_id`). */
  function Lookup(webhooks: seq<Webhook>, id: string): (r: Option<Webhook>)
    ensures r.Some? ==> r.value in webhooks && r.value.id == id
    ensures r.None? <==> forall w :: w in webhooks ==> w.id != id
  {
    if webhooks == [] then None
    else if webhooks[0].id == id then Some(webhooks[0])
    else Lookup(webhooks[1..], id)
  }

  /** With unique ids, the lookup finds exactly the record stored under that id. */
  lemma {:induction false} LookupFinds(webhooks: seq<Webhook>, i: nat)
    requires i < |webhooks|
    requires forall j, k :: 0 <= j < k < |webhooks| ==> webhooks[j].id != webhooks[k].id
    ensures Lookup(webhooks, webhooks[i].id) == Some(webhooks[i])
  {
    if i > 0 {
      assert webhooks[0].id != webhooks[i].id;
      LookupFinds(webhooks[1..], i - 1);
    }
  }

  /**
   * `$addToSet` with `$each`: each added element is appended unless an equal
   * one is already there. Existing elements stay first and in place, nothing
   * is lost, and no duplicate is introduced.
   */
  function AddToSet(existing: seq<Endpoint>, added: seq<Endpoint>): (r: seq<Endpoint>)
    ensures |existing| <= |r| && r[..|existing|] == existing
    ensures forall e :: e in r <==> e in existing || e in added
    ensures Distinct(existing) ==> Distinct(r)
    decreases |added|
  {
    if added == [] then existing
    else
      var next := if added[0] in existing then existing else existing + [added[0]];
      var r := AddToSet(next, added[1..]);
      assert r[..|existing|] == next[..|existing|];
      r
  }

  /** One step of `AddToSet` for an element not yet present: it is appended. */
  lemma AddToSetStep(existing: seq<Endpoint>, added: seq<Endpoint>)
    requires added != [] && added[0] !in existing
    ensures AddToSet(existing, added) == AddToSet(existing + [added[0]], added[1..])
  {
  }

  /** Endpoints with fresh identifiers are all appended, in the order given. */
  lemma {:induction false} AddToSetOfFresh(existing: seq<Endpoint>, added: seq<Endpoint>)
    requires forall k :: 0 <= k < |added| ==> added[k] !in existing
    requires Distinct(added)
    ensures AddToSet(existing, added) == existing + added
    decreases |added|
  {
    if added != [] {
      var next := existing + [added[0]];
      var rest := added[1..];
      AddToSetStep(existing, added);
      forall k | 0 <= k < |rest|
        ensures rest[k] !in next
      {
        assert rest[k] == added[k + 1] && added[k + 1] !in existing && added[k + 1] != added[0];
      }
      forall j, k | 0 <= j < k < |rest|
        ensures rest[j] != rest[k]
      {
        assert rest[j] == added[j + 1] && rest[k] == added[k + 1];
      }
      AddToSetOfFresh(next, rest);
      assert next + rest == existing + added;
    }
  }

  /** `$pull` by endpoint id: the endpoints whose id differs, in their stored order. */
  function Without(endpoints: seq<Endpoint>, endpointId: string): (r: seq<Endpoint>)
    ensures |r| <= |endpoints|
    ensures forall e :: e in r <==> e in endpoints && e.endpointId != endpointId
  {
    if endpoints == [] then []
    else if endpoints[0].endpointId == endpointId then Without(endpoints[1..], endpointId)
    else [endpoints[0]] + Without(endpoints[1..], endpointId)
  }

  /** Removal keeps the relative order: pulling from a concatenation pulls from each part. */
  lemma {:induction false} WithoutAppend(a: seq<Endpoint>, b: seq<Endpoint>, endpointId: string)
    ensures Without(a + b, endpointId) == Without(a, endpointId) + Without(b, endpointId)
  {
    if a == [] {
      assert a + b == b;
    } else {
      assert (a + b)[1..] == a[1..] + b;
      WithoutAppend(a[1..], b, endpointId);
    }
  }

  /** Pulling an id that no endpoint carries changes nothing. */
  lemma {:induction false} WithoutAbsent(endpoints: seq<Endpoint>, endpointId: string)
    requires forall k :: 0 <= k < |endpoints| ==> endpoints[k].endpointId != endpointId
    ensures Without(endpoints, endpointId) == endpoints
  {
    if endpoints != [] {
      WithoutAbsent(endpoints[1..], endpointId);
    }
  }

  lemma WithoutIdempotent(endpoints: seq<Endpoint>, endpointId: string)
    ensures Without(Without(endpoints, endpointId), endpointId) == Without(endpoints, endpointId)
  {
    var once := Without(endpoints, endpointId);
    forall k | 0 <= k < |once|
      ensures once[k].endpointId != endpointId
    {
      assert once[k] in once;
    }
    WithoutAbsent(once, endpointId);
  }

  /** The registry after `update_one({_id: id}, {$addToSet: {endpoints: {$each: added}}})`. */
  function AddedTo(webhooks: seq<Webhook>, id: string, added: seq<Endpoint>): (r: seq<Webhook>)
    ensures |r| == |webhooks|
    ensures forall i :: 0 <= i < |r| ==>
              r[i].id == webhooks[i].id && r[i].customerId == webhooks[i].customerId
              && r[i].webhookUrl == webhooks[i].webhookUrl
    ensures forall i :: 0 <= i < |r| && webhooks[i].id != id ==> r[i] == webhooks[i]
    ensures forall i :: 0 <= i < |r| && webhooks[i].id == id ==>
              r[i].endpoints == AddToSet(webhooks[i].endpoints, added)
  {
    seq(|webhooks|, i requires 0 <= i < |webhooks| =>
      if webhooks[i].id == id then webhooks[i].(endpoints := AddToSet(webhooks[i].endpoints, added))
      else webhooks[i])
  }

  /** The registry after `update_one({_id: id}, {$pull: {endpoints: {endpoint_id: endpointId}}})`. */
  function PulledFrom(webhooks: seq<Webhook>, id: string, endpointId: string): (r: seq<Webhook>)
    ensures |r| == |webhooks|
    ensures forall i :: 0 <= i < |r| ==>
              r[i].id == webhooks[i].id && r[i].customerId == webhooks[i].customerId
              && r[i].webhookUrl == webhooks[i].webhookUrl
    ensures forall i :: 0 <= i < |r| && webhooks[i].id != id ==> r[i] == webhooks[i]
    ensures forall i :: 0 <= i < |r| && webhooks[i].id == id ==>
              r[i].endpoints == Without(webhooks[i].endpoints, endpointId)
  {
    seq(|webhooks|, i requires 0 <= i < |webhooks| =>
      if webhooks[i].id == id then webhooks[i].(endpoints := Without(webhooks[i].endpoints, endpointId))
      else webhooks[i])
  }

  /** Deleting the same endpoint twice leaves the registry as deleting it once. */
  lemma PulledFromIdempotent(webhooks: seq<Webhook>, id: string, endpointId: string)
    ensures PulledFrom(PulledFrom(webhooks, id, endpointId), id, endpointId) == PulledFrom(webhooks, id, endpointId)
  {
    var once := PulledFrom(webhooks, id, endpointId);
    var twice := PulledFrom(once, id, endpointId);
    forall i | 0 <= i < |webhooks|
      ensures twice[i] == once[i]
    {
      if webhooks[i].id == id {
        WithoutIdempotent(webhooks[i].endpoints, endpointId);
      }
    }
  }
}
