// A user's profile: free-form preferences, named schedules and tracked
// goals. The clock reading that stamps each update enters as `now`; time
// values are kept in their ISO text form.
module UserProfile {
  import opened Wrappers
  import opened Json
  import opened Text

  /** A weekly schedule entry; `days` counts 0 for Monday up to 6 for Sunday. */
  datatype Schedule = Schedule(name: string, startTime: string, endTime: string, days: seq<int>)

  predicate IsActiveOnDay(s: Schedule, day: int)
  {
    day in s.days
  }

  datatype Goal = Goal(name: string, targetValue: real, currentValue: real, unit: string, deadline: Option<string>)

  /** `progress_percentage`: the share of the target reached, in percent; 0 for a zero target. */
  function ProgressPercentage(g: Goal): (p: real)
    ensures g.targetValue == 0.0 ==> p == 0.0
    ensures g.targetValue != 0.0 ==> p * g.targetValue == g.currentValue * 100.0
  {
    if g.targetValue == 0.0 then 0.0 else (g.currentValue / g.targetValue) * 100.0
  }

  predicate IsOnTrack(g: Goal)
  {
    g.currentValue >= g.targetValue
  }

  /** For a positive target, a goal is on track exactly when its progress has reached 100 percent. */
  lemma OnTrackIffComplete(g: Goal)
    requires g.targetValue > 0.0
    ensures IsOnTrack(g) <==> ProgressPercentage(g) >= 100.0
  {
    var p := ProgressPercentage(g);
    if p >= 100.0 {
      assert p * g.targetValue >= 100.0 * g.targetValue;
    } else {
      assert p * g.targetValue < 100.0 * g.targetValue;
    }
  }

  /** The position of the first name equal to `name` ignoring case. */
  function FirstNamed(names: seq<string>, name: string): (r: Option<nat>)
    ensures r.Some? ==> r.value < |names| && Lower(names[r.value]) == Lower(name)
    ensures r.Some? ==> forall j :: 0 <= j < r.value ==> Lower(names[j]) != Lower(name)
    ensures r.None? <==> forall j :: 0 <= j < |names| ==> Lower(names[j]) != Lower(name)
  {
    if names == [] then None
    else if Lower(names[0]) == Lower(name) then Some(0)
    else
      var rest := FirstNamed(names[1..], name);
      assert forall j :: 1 <= j < |names| ==> names[j] == names[1..][j - 1];
      if rest.Some? then Some(rest.value + 1) else None
  }

  /** The names of `xs` in order, each read by `nameOf`. */
  function NamesOf<T>(xs: seq<T>, nameOf: T -> string): (r: seq<string>)
    ensures |r| == |xs| && forall i :: 0 <= i < |xs| ==> r[i] == nameOf(xs[i])
  {
    seq(|xs|, i requires 0 <= i < |xs| => nameOf(xs[i]))
  }

  function ScheduleName(s: Schedule): string
  {
    s.name
  }

  function GoalName(g: Goal): string
  {
    g.name
  }

  /** A profile; `userId` and `now` stand for the generated uuid and the creation time. */
  class Profile {
    var userId: string
    var createdAt: string
    var updatedAt: string
    var preferences: seq<(string, Json)>
    var schedules: seq<Schedule>
    var goals: seq<Goal>
    var encryptionKeyHash: string

    constructor (userId: string, now: string)
      ensures this.userId == userId && createdAt == now && updatedAt == now
      ensures preferences == [] && schedules == [] && goals == [] && encryptionKeyHash == ""
    {
      this.userId := userId;
      createdAt := now;
      updatedAt := now;
      preferences := [];
      schedules := [];
      goals := [];
      encryptionKeyHash := "";
    }

    /** `add_schedule`: exactly one schedule more, at the end; the others stay as they were. */
    method AddSchedule(schedule: Schedule, now: string)
      modifies this
      ensures schedules == old(schedules) + [schedule] && updatedAt == now
      ensures goals == old(goals) && preferences == old(preferences)
      ensures userId == old(userId) && createdAt == old(createdAt) && encryptionKeyHash == old(encryptionKeyHash)
    {
      schedules := schedules + [schedule];
      updatedAt := now;
    }

    /** `add_goal`: exactly one goal more, at the end; the others stay as they were. */
    method AddGoal(goal: Goal, now: string)
      modifies this
      ensures goals == old(goals) + [goal] && updatedAt == now
      ensures schedules == old(schedules) && preferences == old(preferences)
      ensures userId == old(userId) && createdAt == old(createdAt) && encryptionKeyHash == old(encryptionKeyHash)
    {
      goals := goals + [goal];
      updatedAt := now;
    }

    /** `update_preference`: the key now holds the value and every other key keeps its own. */
    method UpdatePreference(key: string, value: Json, now: string)
      modifies this
      ensures preferences == Put(old(preferences), key, value) && updatedAt == now
      ensures Lookup(preferences, key) == Some(value)
      ensures forall k :: k != key ==> Lookup(preferences, k) == Lookup(old(preferences), k)
      ensures schedules == old(schedules) && goals == old(goals)
      ensures userId == old(userId) && createdAt == old(createdAt) && encryptionKeyHash == old(encryptionKeyHash)
    {
      forall k | k != key
        ensures Lookup(Put(preferences, key, value), k) == Lookup(preferences, k)
      {
        PutOther(preferences, key, value, k);
      }
      preferences := Put(preferences, key, value);
      updatedAt := now;
    }

    /** `get_schedule_by_name`: the first schedule whose name matches ignoring case, else None. */
    method GetScheduleByName(name: string) returns (r: Option<Schedule>)
      ensures var k := FirstNamed(NamesOf(schedules, ScheduleName), name);
        r == if k.Some? then Some(schedules[k.value]) else None
    {
      var names := NamesOf(schedules, ScheduleName);
      var i := 0;
      while i < |schedules|
        invariant 0 <= i <= |schedules|
        invariant forall j :: 0 <= j < i ==> Lower(names[j]) != Lower(name)
      {
        if Lower(schedules[i].name) == Lower(name) {
          return Some(schedules[i]);
        }
        i := i + 1;
      }
      return None;
    }

    /** `get_goal_by_name`: the first goal whose name matches ignoring case, else None. */
    method GetGoalByName(name: string) returns (r: Option<Goal>)
      ensures var k := FirstNamed(NamesOf(goals, GoalName), name);
        r == if k.Some? then Some(goals[k.value]) else None
    {
      var names := NamesOf(goals, GoalName);
      var i := 0;
      while i < |goals|
        invariant 0 <= i <= |goals|
        invariant forall j :: 0 <= j < i ==> Lower(names[j]) != Lower(name)
      {
        if Lower(goals[i].name) == Lower(name) {
          return Some(goals[i]);
        }
        i := i + 1;
      }
      return None;
    }
  }
}
