/**
 * The staff-evaluation screen: star ratings per criterion (an Enterprise feature), adding a
 * member without any uniqueness check, and deleting one.
 */
module StaffManagement {
  import opened Types
  import opened Text
  import SettingsScreen
  import opened Wrappers

  /** The four criteria the screen shows stars for. */
  datatype Criterion = Attendance | SalesSkills | ClientSatisfaction | Honesty

  function Rating(p: StaffPerformance, c: Criterion): int
  {
    match c
    case Attendance => p.attendance
    case SalesSkills => p.salesSkills
    case ClientSatisfaction => p.clientSatisfaction
    case Honesty => p.honesty
  }

  /** `{ ...s.performance, [criteria]: value, lastEvaluation: now }`. */
  function Rate(p: StaffPerformance, c: Criterion, value: int, now: string): (r: StaffPerformance)
    ensures forall k :: Rating(r, k) == if k == c then value else Rating(p, k)
    ensures r.lastEvaluation == now && r.complaints == p.complaints
  {
    match c
    case Attendance => p.(attendance := value, lastEvaluation := now)
    case SalesSkills => p.(salesSkills := value, lastEvaluation := now)
    case ClientSatisfaction => p.(clientSatisfaction := value, lastEvaluation := now)
    case Honesty => p.(honesty := value, lastEvaluation := now)
  }

  /** The `prev.map(...)` of `updateStaffPerformance`. */
  function RateMember(staff: seq<StaffMember>, id: string, c: Criterion, value: int, now: string)
    : (r: seq<StaffMember>)
    ensures |r| == |staff|
    ensures forall i :: 0 <= i < |staff| && staff[i].id != id ==> r[i] == staff[i]
    ensures forall i :: 0 <= i < |staff| && staff[i].id == id ==>
              r[i] == staff[i].(performance := Rate(staff[i].performance, c, value, now))
  {
    seq(|staff|, i requires 0 <= i < |staff| =>
      if staff[i].id == id then staff[i].(performance := Rate(staff[i].performance, c, value, now))
      else staff[i])
  }

  /** The values the five star buttons hand to `onRate`. */
  const StarValues: seq<int> := [1, 2, 3, 4, 5]

  /** Which of the five stars are lit for a rating: the star worth `StarValues[i]` when it is `<= value`. */
  function Stars(value: int): (r: seq<bool>)
    ensures |r| == |StarValues|
    ensures forall i :: 0 <= i < |r| ==> (r[i] <==> i + 1 <= value)
  {
    seq(|StarValues|, i requires 0 <= i < |StarValues| => StarValues[i] <= value)
  }

  function LitCount(stars: seq<bool>): nat
  {
    if |stars| == 0 then 0 else LitCount(stars[..|stars| - 1]) + (if stars[|stars| - 1] then 1 else 0)
  }

  /** Among the first n stars, min(n, value) are lit (none for a rating below 1). */
  lemma {:induction false} LitPrefix(value: int, n: nat)
    requires n <= |StarValues|
    ensures LitCount(Stars(value)[..n]) == if value < 0 then 0 else if n <= value then n else value
  {
    var s := Stars(value);
    if n > 0 {
      assert s[..n][..n - 1] == s[..n - 1];
      LitPrefix(value, n - 1);
    }
  }

  /** A rating in 1..5 lights exactly that many stars, and the lit ones come first. */
  lemma LitMatchesRating(value: int)
    requires 1 <= value <= 5
    ensures LitCount(Stars(value)) == value
    ensures forall i, j :: 0 <= i < j < 5 && Stars(value)[j] ==> Stars(value)[i]
  {
    LitPrefix(value, 5);
    assert Stars(value)[..5] == Stars(value);
  }

  predicate InRange(v: int)
  {
    1 <= v <= 5
  }

  /** Every member's four ratings lie in 1..5. */
  predicate RatingsInRange(staff: seq<StaffMember>)
  {
    forall i, c :: 0 <= i < |staff| ==> InRange(Rating(staff[i].performance, c))
  }

  /** Rating with a star value, adding a new member or deleting one keep every rating in 1..5. */
  lemma RatingsStayInRange(staff: seq<StaffMember>, id: string, c: Criterion, star: int, now: string,
                           form: SettingsScreen.StaffForm, freshId: string)
    requires RatingsInRange(staff) && star in StarValues
    ensures RatingsInRange(RateMember(staff, id, c, star, now))
    ensures RatingsInRange(staff + [SettingsScreen.StaffFromForm(None, form, freshId, now)])
    ensures RatingsInRange(SettingsScreen.WithoutMember(staff, id))
  {
    var r := RateMember(staff, id, c, star, now);
    forall i, k | 0 <= i < |r|
      ensures InRange(Rating(r[i].performance, k))
    {
      assert InRange(Rating(staff[i].performance, k));
    }
    var n := SettingsScreen.StaffFromForm(None, form, freshId, now);
    forall i, k | 0 <= i < |staff| + 1
      ensures InRange(Rating((staff + [n])[i].performance, k))
    {
      if i < |staff| {
        assert InRange(Rating(staff[i].performance, k));
      }
    }
    var w := SettingsScreen.WithoutMember(staff, id);
    forall i, k | 0 <= i < |w|
      ensures InRange(Rating(w[i].performance, k))
    {
      assert w[i] in staff;
      var j :| 0 <= j < |staff| && staff[j] == w[i];
      assert InRange(Rating(staff[j].performance, k));
    }
  }

  /** `handleAddStaff`'s guard: trimmed name, username and access code all non-empty. */
  function CanAdd(form: SettingsScreen.StaffForm): (b: bool)
    ensures b <==> Trim(form.name) != "" && Trim(form.username) != "" && Trim(form.accessCode) != ""
  {
    Trim(form.name) != "" && Trim(form.username) != "" && Trim(form.accessCode) != ""
  }

  /** The empty form the modal starts from (and returns to after adding). */
  const EmptyForm: SettingsScreen.StaffForm := SettingsScreen.StaffForm("", "", "", "Serveur")

  /** The evaluation screen's state. */
  class StaffBoard {
    var staff: seq<StaffMember>
    var newStaff: SettingsScreen.StaffForm
    const storeTier: SubscriptionTier

    constructor (staff: seq<StaffMember>, storeTier: SubscriptionTier)
      ensures this.staff == staff && this.storeTier == storeTier && newStaff == EmptyForm
    {
      this.staff := staff;
      this.storeTier := storeTier;
      newStaff := EmptyForm;
    }

    /** `updateStaffPerformance`: only on the Enterprise tier. */
    method UpdateStaffPerformance(id: string, c: Criterion, value: int, now: string)
      modifies this`staff
      ensures staff == if storeTier == Enterprise then RateMember(old(staff), id, c, value, now) else old(staff)
    {
      if storeTier != Enterprise {
        return;
      }
      staff := RateMember(staff, id, c, value, now);
    }

    /** `deleteStaff`, behind its confirmation. */
    method DeleteStaff(id: string, confirmed: bool)
      modifies this`staff
      ensures staff == if confirmed then SettingsScreen.WithoutMember(old(staff), id) else old(staff)
    {
      if confirmed {
        staff := SettingsScreen.WithoutMember(staff, id);
      }
    }

    method SetNewStaff(form: SettingsScreen.StaffForm)
      modifies this`newStaff
      ensures newStaff == form
    {
      newStaff := form;
    }

    /** `handleAddStaff`: appends the filled-in member with the default ratings and resets the form. */
    method AddStaff(freshId: string, now: string) returns (added: bool)
      modifies this`staff, this`newStaff
      ensures added == CanAdd(old(newStaff))
      ensures added ==> staff == old(staff) + [SettingsScreen.StaffFromForm(None, old(newStaff), freshId, now)]
                        && newStaff == EmptyForm
      ensures !added ==> staff == old(staff) && newStaff == old(newStaff)
    {
      added := CanAdd(newStaff);
      if !added {
        return;
      }
      staff := staff + [SettingsScreen.StaffFromForm(None, newStaff, freshId, now)];
      newStaff := EmptyForm;
    }
  }
}
