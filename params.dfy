/**
 * Query-string validation (`validate_params`) and the choice of profile name
 * made at the top of `lambda_handler`.
 */
module Params {
  import opened Wrappers
  import opened Json
  import opened Responses

  /** `queryStringParameters`: a parameter may be present with the value `None`. */
  type QueryParams = map<string, Option<string>>

  const MissingPrefix := "Necessary query string parameters not specified: "
  const DefaultProfile := "default"

  /** A parameter counts as given when it is present and not `None`. */
  predicate Present(q: QueryParams, p: string)
  {
    p in q && q[p].Some?
  }

  /** `checks[i]` is the first parameter of `checks`, in list order, that is not given. */
  predicate FirstAbsentAt(q: QueryParams, checks: seq<string>, i: int)
  {
    0 <= i < |checks| && !Present(q, checks[i]) &&
    forall j :: 0 <= j < i ==> Present(q, checks[j])
  }

  /** The index at which the loop of `validate_params` stops, if it stops early. */
  function FirstMissing(q: QueryParams, checks: seq<string>): (r: Option<nat>)
    ensures r.None? <==> forall i :: 0 <= i < |checks| ==> Present(q, checks[i])
    ensures r.Some? ==> FirstAbsentAt(q, checks, r.value)
    decreases |checks|
  {
    if |checks| == 0 then None
    else if !Present(q, checks[0]) then Some(0)
    else
      match FirstMissing(q, checks[1..])
      case None => None
      case Some(i) => Some(i + 1)
  }

  /** `' '.join(words)`. */
  function JoinSpaces(words: seq<string>): string
  {
    if |words| == 0 then ""
    else if |words| == 1 then words[0]
    else words[0] + " " + JoinSpaces(words[1..])
  }

  /** `w` occurs in `s` starting at offset `off`. */
  predicate OccursAt(s: string, w: string, off: int)
  {
    0 <= off <= off + |w| <= |s| && s[off..off + |w|] == w
  }

  /** Every word of `words` appears, as a whole, somewhere in `' '.join(words)`. */
  lemma {:induction false} JoinSpacesNamesEach(words: seq<string>, i: int)
    requires 0 <= i < |words|
    ensures exists off :: OccursAt(JoinSpaces(words), words[i], off)
    decreases |words|
  {
    var joined := JoinSpaces(words);
    if i == 0 {
      assert OccursAt(joined, words[0], 0);
    } else {
      JoinSpacesNamesEach(words[1..], i - 1);
      var rest := JoinSpaces(words[1..]);
      assert joined == words[0] + " " + rest;
      var off' :| OccursAt(rest, words[1..][i - 1], off');
      var off := |words[0]| + 1 + off';
      assert joined[off..off + |words[i]|] == rest[off'..off' + |words[i]|];
      assert OccursAt(joined, words[i], off);
    }
  }

  /**
   * `validate_params`: `None` when every required parameter is given,
   * otherwise a 400 naming all of them (no parameters at all) or the first
   * one missing.
   */
  function ValidateParams(q: Option<QueryParams>, checks: seq<string>): (r: Option<Response>)
    ensures r.None? <==> q.Some? && forall i :: 0 <= i < |checks| ==> Present(q.value, checks[i])
    ensures r.Some? ==> r.value.statusCode == 400 && IsError(r.value)
    ensures q.None? ==> r == Some(Envelope(MissingPrefix + JoinSpaces(checks), 400, None))
    ensures q.Some? && r.Some? ==>
      exists i :: FirstAbsentAt(q.value, checks, i) && r.value == Envelope(MissingPrefix + checks[i], 400, None)
  {
    match q
    case None => Some(Envelope(MissingPrefix + JoinSpaces(checks), 400, None))
    case Some(params) =>
      match FirstMissing(params, checks)
      case None => None
      case Some(i) => Some(Envelope(MissingPrefix + checks[i], 400, None))
  }

  /** The profile `lambda_handler` resolves: the `profile` parameter when given, else "default". */
  function ProfileName(q: Option<QueryParams>): (p: string)
    ensures q.Some? && Present(q.value, "profile") ==> p == q.value["profile"].value
    ensures !(q.Some? && Present(q.value, "profile")) ==> p == DefaultProfile
  {
    if q.Some? && "profile" in q.value && q.value["profile"].Some? then q.value["profile"].value
    else DefaultProfile
  }

  /**
   * Only a usable `profile` parameter selects the profile: a `profile` given
   * as `None` acts like an absent one, absent parameters act like an empty
   * map, and no other parameter matters.
   */
  lemma ProfileNameDefaults(q: QueryParams, p: string, v: Option<string>)
    ensures ProfileName(Some(q["profile" := None])) == ProfileName(Some(q - {"profile"})) == DefaultProfile
    ensures ProfileName(None) == ProfileName(Some(map[])) == DefaultProfile
    ensures p != "profile" ==> ProfileName(Some(q[p := v])) == ProfileName(Some(q))
    ensures ProfileName(Some(q["profile" := Some(p)])) == p
  {
  }

  /** Validation depends only on the required names: a parameter outside `checks` never matters. */
  lemma {:induction false} ValidateIgnoresOtherParams(q: QueryParams, checks: seq<string>, p: string, v: Option<string>)
    requires p !in checks
    ensures ValidateParams(Some(q[p := v]), checks) == ValidateParams(Some(q), checks)
  {
    FirstMissingIgnoresOtherParams(q, checks, p, v);
  }

  lemma {:induction false} FirstMissingIgnoresOtherParams(q: QueryParams, checks: seq<string>, p: string, v: Option<string>)
    requires p !in checks
    ensures FirstMissing(q[p := v], checks) == FirstMissing(q, checks)
    decreases |checks|
  {
    if |checks| > 0 {
      assert checks[0] != p;
      assert p !in checks[1..];
      FirstMissingIgnoresOtherParams(q, checks[1..], p, v);
    }
  }
}
