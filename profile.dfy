/**
 * The profile page: `get_or_create` on the one-to-one profile table, and the
 * age shown when a date of birth is set.
 */
module Profiles {
  import opened Keys
  import opened Wrappers

  /** A calendar date. The age compares fields only; calendar validity matters for the day before a date. */
  datatype Date = Date(year: int, month: int, day: int)

  /** Gregorian leap years. */
  predicate Leap(year: int)
  {
    year % 4 == 0 && (year % 100 != 0 || year % 400 == 0)
  }

  function DaysInMonth(year: int, month: int): (n: int)
    requires 1 <= month <= 12
    ensures 28 <= n <= 31
    ensures n == 29 <==> month == 2 && Leap(year)
  {
    if month == 2 then (if Leap(year) then 29 else 28)
    else if month == 4 || month == 6 || month == 9 || month == 11 then 30
    else 31
  }

  /** A date that exists in the calendar. */
  predicate ValidDate(d: Date)
  {
    1 <= d.month <= 12 && 1 <= d.day <= DaysInMonth(d.year, d.month)
  }

  /** `(a.month, a.day) < (b.month, b.day)`, Python's lexicographic tuple order. */
  predicate MonthDayBefore(a: Date, b: Date)
  {
    a.month < b.month || (a.month == b.month && a.day < b.day)
  }

  /** `a <= b` for dates: (year, month, day) compared lexicographically. */
  predicate OnOrBefore(a: Date, b: Date)
  {
    a.year < b.year || (a.year == b.year && !MonthDayBefore(b, a))
  }

  /** The date `years` years after `dob`, same month and day. */
  function Anniversary(dob: Date, years: int): Date
  {
    Date(dob.year + years, dob.month, dob.day)
  }

  /**
   * The age on the profile page: the year difference, less one while this
   * year's birthday is still ahead. It is the number of completed years: the
   * anniversary it names has been reached and the next one has not.
   */
  function Age(today: Date, dob: Date): (age: int)
    ensures OnOrBefore(Anniversary(dob, age), today)
    ensures !OnOrBefore(Anniversary(dob, age + 1), today)
  {
    today.year - dob.year - (if MonthDayBefore(today, dob) then 1 else 0)
  }

  /** Completed years are unique: no other count has its anniversary reached and the next one not. */
  lemma AgeUnique(today: Date, dob: Date, years: int)
    requires OnOrBefore(Anniversary(dob, years), today)
    requires !OnOrBefore(Anniversary(dob, years + 1), today)
    ensures years == Age(today, dob)
  {
  }

  /** The comparison is strict: on the birthday itself the age is the full year difference. */
  lemma AgeOnBirthday(today: Date, dob: Date)
    requires today.month == dob.month && today.day == dob.day
    ensures Age(today, dob) == today.year - dob.year
  {
  }

  /** The day before `d`: the latest existing date that comes before it. */
  function PreviousDay(d: Date): (p: Date)
    requires ValidDate(d)
    ensures ValidDate(p) && OnOrBefore(p, d) && p != d
    ensures forall q | ValidDate(q) && OnOrBefore(q, d) && q != d :: OnOrBefore(q, p)
  {
    if d.day > 1 then Date(d.year, d.month, d.day - 1)
    else if d.month > 1 then Date(d.year, d.month - 1, DaysInMonth(d.year, d.month - 1))
    else Date(d.year - 1, 12, 31)
  }

  /** Before this year's birthday, whatever the date, the year is not yet complete. */
  lemma AgeBeforeBirthday(today: Date, dob: Date)
    requires MonthDayBefore(today, dob)
    ensures Age(today, dob) == today.year - dob.year - 1
  {
  }

  /**
   * On the day before a birthday, even when that day falls in the previous
   * month or, for a 1 January birthday, on 31 December of the previous year,
   * the year is not yet complete.
   */
  lemma AgeDayBeforeBirthday(dob: Date, year: int)
    requires ValidDate(Anniversary(dob, year - dob.year))
    ensures Age(PreviousDay(Anniversary(dob, year - dob.year)), dob) == year - dob.year - 1
  {
    var birthday := Anniversary(dob, year - dob.year);
    var eve := PreviousDay(birthday);
    if dob.day == 1 && dob.month == 1 {
      assert eve == Date(year - 1, 12, 31);
    } else {
      assert eve.year == year && MonthDayBefore(eve, dob);
    }
  }

  /**
   * Born on 29 February: in a common year the age goes up on 1 March, not on
   * 28 February; in a leap year it goes up on the birthday itself.
   */
  lemma AgeLeapDayBirthday(dob: Date, year: int)
    requires dob.month == 2 && dob.day == 29
    ensures !Leap(year) ==>
      && Age(Date(year, 2, 28), dob) == year - dob.year - 1
      && Age(Date(year, 3, 1), dob) == year - dob.year
    ensures Age(Date(year, 2, 29), dob) == year - dob.year
  {
  }

  /** Nobody born on or before today has a negative age. */
  lemma AgeNonNegative(today: Date, dob: Date)
    requires OnOrBefore(dob, today)
    ensures Age(today, dob) >= 0
  {
  }

  /** A row of the profile table; `dateOfBirth` is None where the column is null. */
  datatype UserProfile = UserProfile(user: UserId, dateOfBirth: Option<Date>)

  predicate HasProfile(profiles: seq<UserProfile>, user: UserId)
  {
    exists i | 0 <= i < |profiles| :: profiles[i].user == user
  }

  /** `user = OneToOneField(User)`: at most one profile per user. */
  predicate OneProfileEach(profiles: seq<UserProfile>)
  {
    forall i, j | 0 <= i < j < |profiles| :: profiles[i].user != profiles[j].user
  }

  /** The database lookup `UserProfile.objects.get(user=user)`. */
  function FindProfile(profiles: seq<UserProfile>, user: UserId): (r: Option<nat>)
    ensures r.Some? <==> HasProfile(profiles, user)
    ensures r.Some? ==> r.value < |profiles| && profiles[r.value].user == user
  {
    if |profiles| == 0 then None
    else if profiles[0].user == user then Some(0)
    else match FindProfile(profiles[1..], user)
      case None => None
      case Some(i) => Some(i + 1)
  }

  datatype ProfileResponse =
    | ProfileFailed                                      // an exception escapes the view: 500
    | ProfilePage(profile: UserProfile, age: Option<int>)

  /** The profile table. */
  class ProfileDb {
    var profiles: seq<UserProfile>

    ghost predicate Valid()
      reads this
    {
      OneProfileEach(profiles)
    }

    constructor ()
      ensures Valid() && profiles == []
    {
      profiles := [];
    }

    /**
     * `UserProfile.objects.get_or_create(user=user)`: the user's profile, or a
     * new blank one when there is none; afterwards the user has exactly one.
     */
    method GetOrCreate(user: UserId) returns (profile: UserProfile, created: bool)
      requires Valid()
      modifies this
      ensures Valid()
      ensures created <==> !HasProfile(old(profiles), user)
      ensures profiles == if created then old(profiles) + [UserProfile(user, None)] else old(profiles)
      ensures profile.user == user && profile in profiles
      ensures forall i | 0 <= i < |profiles| && profiles[i].user == user :: profiles[i] == profile
    {
      var found := FindProfile(profiles, user);
      if found.Some? {
        profile := profiles[found.value];
        created := false;
      } else {
        profile := UserProfile(user, None);
        profiles := profiles + [profile];
        created := true;
      }
    }

    /**
     * profile as written: the user's profile is fetched or created, then the
     * recent orders are read through `order_set`, an accessor the order's
     * foreign key does not define (it is named `orders`). The view raises
     * there, after the profile row may have been created and before any age
     * is computed.
     */
    method Profile(user: UserId) returns (r: ProfileResponse)
      requires Valid()
      modifies this
      ensures Valid()
      ensures profiles == if HasProfile(old(profiles), user) then old(profiles) else old(profiles) + [UserProfile(user, None)]
      ensures r == ProfileFailed
    {
      var profile, created := GetOrCreate(user);
      r := ProfileFailed;
    }

    /**
     * profile as the view intends it, reading the orders through `orders`:
     * get or create the user's profile; an age is computed only when a date
     * of birth is set, from today's date `today`.
     */
    method ProfileWithAge(user: UserId, today: Date) returns (r: ProfileResponse)
      requires Valid()
      modifies this
      ensures Valid()
      ensures profiles == if HasProfile(old(profiles), user) then old(profiles) else old(profiles) + [UserProfile(user, None)]
      ensures r.ProfilePage? && r.profile.user == user && r.profile in profiles
      ensures r.age.Some? <==> r.profile.dateOfBirth.Some?
      ensures r.age.Some? ==>
        && OnOrBefore(Anniversary(r.profile.dateOfBirth.value, r.age.value), today)
        && !OnOrBefore(Anniversary(r.profile.dateOfBirth.value, r.age.value + 1), today)
    {
      var profile, created := GetOrCreate(user);
      var age := None;
      if profile.dateOfBirth.Some? {
        var dob := profile.dateOfBirth.value;
        age := Some(Age(today, dob));
      }
      r := ProfilePage(profile, age);
    }
  }
}
