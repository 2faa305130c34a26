/**
 * The filter builder: the query parameters sent to the incidents listing.
 *
 * The script keeps them in one module-level dictionary that starts with two
 * fixed defaults and that every call updates in place, so anything an
 * earlier call wrote and a later call does not overwrite is still there.
 */
module Filters {
  import opened Wrappers

  /** A query parameter is a single string or a list of strings. */
  datatype ParamValue = Str(s: string) | List(items: seq<string>)

  type Params = map<string, ParamValue>

  const OverviewKey := "is_overview"
  const DateRangeKey := "date_range"
  const UserIdsKey := "user_ids[]"
  const ServiceIdsKey := "service_ids[]"
  const StatusesKey := "statuses[]"

  /** The keys that a build may write. */
  const Written: set<string> := {UserIdsKey, ServiceIdsKey, StatusesKey}

  // ---------------------------------------------------------------------
  // Python's str.split(',') and ','.join

  /** Number of commas in `s`. */
  function CommaCount(s: string): nat
  {
    if |s| == 0 then 0 else (if s[0] == ',' then 1 else 0) + CommaCount(s[1..])
  }

  /**
   * `s.split(',')`: the maximal comma-free pieces of `s`, in order. Empty
   * pieces are kept, so the empty string splits into one empty piece.
   */
  function Split(s: string): (pieces: seq<string>)
    ensures |pieces| == CommaCount(s) + 1
    ensures forall i :: 0 <= i < |pieces| ==> ',' !in pieces[i]
  {
    if |s| == 0 then [""]
    else if s[0] == ',' then [""] + Split(s[1..])
    else
      var rest := Split(s[1..]);
      [[s[0]] + rest[0]] + rest[1..]
  }

  /** `','.join(pieces)`. */
  function Join(pieces: seq<string>): string
  {
    if |pieces| == 0 then ""
    else if |pieces| == 1 then pieces[0]
    else pieces[0] + "," + Join(pieces[1..])
  }

  /** Prepending a non-comma character to the first piece prepends it to the joined string. */
  lemma {:induction false} JoinConsFirst(c: char, rest: seq<string>)
    requires |rest| >= 1
    ensures Join([[c] + rest[0]] + rest[1..]) == [c] + Join(rest)
  {
    var ps := [[c] + rest[0]] + rest[1..];
    assert ps[0] == [c] + rest[0];
    if |rest| > 1 {
      assert ps[1..] == rest[1..];
      var j := Join(rest[1..]);
      assert Join(ps) == ps[0] + "," + j;
      assert Join(rest) == rest[0] + "," + j;
      assert ([c] + rest[0]) + "," + j == [c] + (rest[0] + "," + j);
    } else {
      assert |ps| == 1;
    }
  }

  /** Joining the pieces of a split with ',' gives back the original string. */
  lemma {:induction false} JoinSplit(s: string)
    ensures Join(Split(s)) == s
  {
    if |s| == 0 {
    } else if s[0] == ',' {
      var rest := Split(s[1..]);
      JoinSplit(s[1..]);
      assert ([""] + rest)[1..] == rest;
      assert s == [','] + s[1..];
    } else {
      var rest := Split(s[1..]);
      JoinSplit(s[1..]);
      JoinConsFirst(s[0], rest);
      assert s == [s[0]] + s[1..];
    }
  }

  /** Splitting a string that starts with a comma-free word `w`. */
  lemma {:induction false} SplitAfterWord(w: string, t: string)
    requires ',' !in w
    ensures Split(w + t) == [w + Split(t)[0]] + Split(t)[1..]
  {
    if |w| == 0 {
      var st := Split(t);
      assert w + t == t;
      assert w + st[0] == st[0];
      assert [st[0]] + st[1..] == st;
    } else {
      var u := w[1..];
      assert (w + t)[0] == w[0];
      assert (w + t)[1..] == u + t;
      assert ',' !in u by {
        forall i | 0 <= i < |u| ensures u[i] != ',' { assert u[i] == w[i + 1]; }
      }
      SplitAfterWord(u, t);
      assert [w[0]] + (u + Split(t)[0]) == w + Split(t)[0];
    }
  }

  /** Conversely, splitting the join of comma-free pieces gives back the pieces. */
  lemma {:induction false} SplitJoin(pieces: seq<string>)
    requires |pieces| >= 1
    requires forall i :: 0 <= i < |pieces| ==> ',' !in pieces[i]
    ensures Split(Join(pieces)) == pieces
  {
    if |pieces| == 1 {
      SplitAfterWord(pieces[0], "");
      assert pieces[0] + "" == pieces[0];
    } else {
      var w, tail := pieces[0], pieces[1..];
      SplitJoin(tail);
      SplitAfterWord(w, "," + Join(tail));
      assert w + "," + Join(tail) == w + ("," + Join(tail));
      assert ("," + Join(tail))[0] == ',';
      assert ("," + Join(tail))[1..] == Join(tail);
      assert Split("," + Join(tail)) == [""] + tail;
      assert ([""] + tail)[1..] == tail;
      assert w + "" == w;
      assert pieces == [w] + tail;
    }
  }

  // ---------------------------------------------------------------------
  // Building the parameters

  /** The dictionary as the module loads it. */
  function Defaults(): (m: Params)
    ensures HasDefaults(m)
    ensures m.Keys !! Written
  {
    map[OverviewKey := Str("true"), DateRangeKey := Str("all")]
  }

  /** The two fixed defaults are in place. */
  predicate HasDefaults(m: Params)
  {
    && OverviewKey in m && m[OverviewKey] == Str("true")
    && DateRangeKey in m && m[DateRangeKey] == Str("all")
  }

  /** `m` and `m'` agree on key `k`: both lack it or both map it to the same value. */
  predicate SameAt(m: Params, m': Params, k: string)
  {
    (k in m <==> k in m') && (k in m ==> m[k] == m'[k])
  }

  /** Python truthiness of an optional string argument: present and non-empty. */
  predicate Provided(arg: Option<string>)
  {
    arg.Some? && arg.value != ""
  }

  /** The status filter an action selects, if any. */
  function StatusFilter(action: string): (filter: Option<seq<string>>)
    ensures filter.Some? <==> action == "resolve" || action == "acknowledge"
    ensures filter.Some? ==> "triggered" in filter.value && "resolved" !in filter.value
    ensures filter.Some? ==> ("acknowledged" in filter.value <==> action == "resolve")
  {
    if action == "resolve" then Some(["triggered", "acknowledged"])
    else if action == "acknowledge" then Some(["triggered"])
    else None
  }

  /**
   * The dictionary after one build on top of `prior`. Each id filter is
   * replaced only when its argument is given; the status filter only when
   * the action is one of the two the builder knows; nothing else moves.
   */
  function Built(prior: Params, userId: Option<string>, serviceId: Option<string>, action: string): (m: Params)
    ensures HasDefaults(prior) ==> HasDefaults(m)
    ensures m.Keys >= prior.Keys
    ensures forall k :: k !in Written ==> SameAt(prior, m, k)
    ensures Provided(userId) ==> UserIdsKey in m && m[UserIdsKey] == List(Split(userId.value))
    ensures !Provided(userId) ==> SameAt(prior, m, UserIdsKey)
    ensures Provided(serviceId) ==> ServiceIdsKey in m && m[ServiceIdsKey] == List(Split(serviceId.value))
    ensures !Provided(serviceId) ==> SameAt(prior, m, ServiceIdsKey)
    ensures action == "resolve" ==> StatusesKey in m && m[StatusesKey] == List(["triggered", "acknowledged"])
    ensures action == "acknowledge" ==> StatusesKey in m && m[StatusesKey] == List(["triggered"])
    ensures action != "resolve" && action != "acknowledge" ==> SameAt(prior, m, StatusesKey)
  {
    var m1 := if Provided(userId) then prior[UserIdsKey := List(Split(userId.value))] else prior;
    var m2 := if Provided(serviceId) then m1[ServiceIdsKey := List(Split(serviceId.value))] else m1;
    match StatusFilter(action)
    case Some(statuses) => m2[StatusesKey := List(statuses)]
    case None => m2
  }

  /** On a freshly loaded dictionary, omitted id arguments leave no id filter: all users and services match. */
  lemma FreshBuildWithoutIds(userId: Option<string>, serviceId: Option<string>, action: string)
    requires !Provided(userId) && !Provided(serviceId)
    ensures UserIdsKey !in Built(Defaults(), userId, serviceId, action)
    ensures ServiceIdsKey !in Built(Defaults(), userId, serviceId, action)
  {
  }

  /**
   * A filter written by one call survives a later call that does not
   * overwrite it, because the dictionary is shared between calls.
   */
  lemma FiltersPersistAcrossCalls(prior: Params, user1: Option<string>, service1: Option<string>, action1: string,
                                  service2: Option<string>, action2: string)
    requires Provided(user1)
    ensures var m := Built(Built(prior, user1, service1, action1), None, service2, action2);
      UserIdsKey in m && m[UserIdsKey] == List(Split(user1.value))
  {
  }

  /** The module-level `PARAMETERS` dictionary. */
  class Parameters {
    var entries: Params

    /** The dictionary as the module loads it. */
    constructor ()
      ensures entries == Defaults()
    {
      entries := Defaults();
    }

    /** Writes the id and status filters of one call into the dictionary. */
    method Build(userId: Option<string>, serviceId: Option<string>, action: string)
      modifies this
      ensures entries == Built(old(entries), userId, serviceId, action)
    {
      if userId.Some? && userId.value != "" {
        entries := entries[UserIdsKey := List(Split(userId.value))];
      }
      if serviceId.Some? && serviceId.value != "" {
        entries := entries[ServiceIdsKey := List(Split(serviceId.value))];
      }
      if action == "resolve" {
        entries := entries[StatusesKey := List(["triggered", "acknowledged"])];
      } else if action == "acknowledge" {
        entries := entries[StatusesKey := List(["triggered"])];
      }
    }
  }
}
