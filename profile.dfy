/**
  The profile page: the statistics computed from the user's time entries,
  the skill list of the edit form, the "time with us" label, the photo URL
  rules, the save that falls back to browser storage when the backend is
  unreachable, and the checks made on a chosen profile image.

  JavaScript's `||` on strings treats `null`, `undefined` and `''` alike;
  here an absent string is the empty string wherever only that operator
  reads it. Browser storage is a map from key to stored value; the profile
  is kept as a structured value rather than as its JSON text.
 */
module Profile {
  import opened Wrappers
  import opened Entries

  // ---------------------------------------------------------------------
  // Statistics

  datatype ProfileStats = ProfileStats(totalHours: real, totalDays: nat, averageHours: real, thisMonthHours: real)

  /**
    The statistics over all entries, for the current month and year (both
    read from the clock by the page, so parameters here).
   */
  function Stats(entries: seq<TimeEntry>, month: int, year: int): (st: ProfileStats)
    ensures st.totalDays == |entries|
    ensures st.totalHours == SumHours(entries)
    ensures st.totalDays > 0 ==> st.averageHours == st.totalHours / st.totalDays as real
    ensures st.totalDays == 0 ==> st.averageHours == 0.0 && st.totalHours == 0.0
    ensures st.thisMonthHours == SumHours(FilterMonth(entries, month, year))
    ensures st.thisMonthHours + SumHours(FilterOtherMonths(entries, month, year)) == st.totalHours
  {
    var totalHours := SumHours(entries);
    var totalDays := |entries|;
    var averageHours := Average(totalHours, totalDays);
    MonthSplitsTotal(entries, month, year);
    ProfileStats(totalHours, totalDays, averageHours, SumHours(FilterMonth(entries, month, year)))
  }

  /** The mean of `count` values summing to `total`; zero when there are none. */
  function Average(total: real, count: nat): (a: real)
    ensures count > 0 ==> a * count as real == total
    ensures count > 0 ==> a == total / count as real
    ensures count == 0 ==> a == 0.0
  {
    if count > 0 then total / count as real else 0.0
  }

  // ---------------------------------------------------------------------
  // Skills

  predicate NoDuplicates(xs: seq<string>) {
    forall i, j :: 0 <= i < j < |xs| ==> xs[i] != xs[j]
  }

  /** The skill list after `addSkill`: a non-empty new skill goes at the end. */
  function WithSkill(skills: seq<string>, skill: string): (r: seq<string>)
    ensures forall x :: x in r <==> x in skills || (x == skill && skill != "")
    ensures |skills| <= |r| <= |skills| + 1 && r[..|skills|] == skills
    ensures skill == "" || skill in skills ==> r == skills
    ensures NoDuplicates(skills) ==> NoDuplicates(r)
  {
    if skill != "" && skill !in skills then skills + [skill] else skills
  }

  /** The skill list after `removeSkill`: every occurrence goes, the rest keep their order. */
  function WithoutSkill(skills: seq<string>, skill: string): (r: seq<string>)
    ensures |r| <= |skills|
    ensures forall x :: x in r <==> x in skills && x != skill
    ensures NoDuplicates(skills) ==> NoDuplicates(r)
  {
    if skills == [] then []
    else if skills[0] == skill then WithoutSkill(skills[1..], skill)
    else
      var rest := WithoutSkill(skills[1..], skill);
      assert NoDuplicates(skills) ==> NoDuplicates(skills[1..]) && skills[0] !in rest by {
        if NoDuplicates(skills) {
          forall i, j | 0 <= i < j < |skills[1..]| ensures skills[1..][i] != skills[1..][j] {
            assert skills[1..][i] == skills[i + 1] && skills[1..][j] == skills[j + 1];
          }
          forall k | 0 <= k < |skills[1..]| ensures skills[1..][k] != skills[0] {
            assert skills[1..][k] == skills[k + 1];
          }
        }
      }
      [skills[0]] + rest
  }

  /** Removal works piece by piece, so the remaining skills keep their relative order. */
  lemma {:induction false} WithoutSkillOfConcat(a: seq<string>, b: seq<string>, skill: string)
    ensures WithoutSkill(a + b, skill) == WithoutSkill(a, skill) + WithoutSkill(b, skill)
  {
    if a == [] {
      assert a + b == b;
    } else {
      assert (a + b)[1..] == a[1..] + b;
      WithoutSkillOfConcat(a[1..], b, skill);
    }
  }

  /** Removing an absent skill changes nothing. */
  lemma {:induction false} WithoutAbsentSkill(skills: seq<string>, skill: string)
    requires skill !in skills
    ensures WithoutSkill(skills, skill) == skills
  {
    if skills != [] {
      WithoutAbsentSkill(skills[1..], skill);
    }
  }

  /** Adding an absent skill and then removing it restores the list. */
  lemma RemoveUndoesAdd(skills: seq<string>, skill: string)
    requires skill !in skills
    ensures WithoutSkill(WithSkill(skills, skill), skill) == skills
  {
    WithoutAbsentSkill(skills, skill);
    if skill != "" {
      WithoutSkillOfConcat(skills, [skill], skill);
    }
  }

  // ---------------------------------------------------------------------
  // Time with the company

  datatype TimeWorked = Unknown | Days(n: nat) | Months(n: nat) | Years(n: nat)

  /**
    The "time with us" bucket for the number of days since the hire date
    (`None` when the user has no hire date).
   */
  function TimeWorkedOf(daysSinceHire: Option<nat>): (t: TimeWorked)
    ensures t == Unknown <==> daysSinceHire.None?
    ensures t.Days? ==> t.n == daysSinceHire.value < 30
    ensures t.Months? ==>
      30 <= daysSinceHire.value < 365 && 30 * t.n <= daysSinceHire.value < 30 * (t.n + 1) && 1 <= t.n <= 12
    ensures t.Years? ==>
      365 <= daysSinceHire.value && 365 * t.n <= daysSinceHire.value < 365 * (t.n + 1) && 1 <= t.n
  {
    match daysSinceHire
    case None => Unknown
    case Some(d) =>
      if d < 30 then Days(d)
      else if d < 365 then Months(d / 30)
      else Years(d / 365)
  }

  function DigitChar(d: nat): (c: char)
    requires d < 10
    ensures c as int - '0' as int == d
  {
    "0123456789"[d]
  }

  /** A decimal numeral as JavaScript prints a count: digits only, no leading zero unless it is "0". */
  predicate Numeral(s: string) {
    |s| >= 1 && (forall i :: 0 <= i < |s| ==> '0' <= s[i] <= '9') && (|s| == 1 || s[0] != '0')
  }

  /** The decimal digits of `n`, most significant first. */
  function Decimal(n: nat): (s: string)
    ensures Numeral(s)
    ensures n > 0 ==> s[0] != '0'
  {
    if n < 10 then [DigitChar(n)] else Decimal(n / 10) + [DigitChar(n % 10)]
  }

  /** The number a string of decimal digits denotes. */
  function DigitsValue(s: string): int {
    if s == [] then 0 else DigitsValue(s[..|s| - 1]) * 10 + (s[|s| - 1] as int - '0' as int)
  }

  /** Reading the decimal rendering back gives the number. */
  lemma {:induction false} DecimalRoundTrip(n: nat)
    ensures DigitsValue(Decimal(n)) == n
  {
    var s := Decimal(n);
    if n < 10 {
      assert s[..|s| - 1] == [];
    } else {
      assert s[..|s| - 1] == Decimal(n / 10);
      DecimalRoundTrip(n / 10);
    }
  }

  lemma {:induction false} DigitsValueBounds(s: string)
    requires forall i :: 0 <= i < |s| ==> '0' <= s[i] <= '9'
    ensures DigitsValue(s) >= 0
    ensures |s| >= 1 && s[0] != '0' ==> DigitsValue(s) >= 1
  {
    if s != [] {
      var p := s[..|s| - 1];
      assert forall i :: 0 <= i < |p| ==> p[i] == s[i];
      DigitsValueBounds(p);
      if |p| >= 1 {
        assert p[0] == s[0];
      }
    }
  }

  /** `Decimal(n)` is the only numeral denoting `n`, so a label that reads back as `n` is `${n}`. */
  lemma {:induction false} NumeralUnique(s: string, n: nat)
    requires Numeral(s) && DigitsValue(s) == n
    ensures s == Decimal(n)
  {
    var c := s[|s| - 1];
    var p := s[..|s| - 1];
    assert s == p + [c];
    assert forall i :: 0 <= i < |p| ==> p[i] == s[i];
    DigitsValueBounds(p);
    if |s| == 1 {
      assert p == [];
      assert DigitChar(n) as int == c as int;
    } else {
      assert p[0] == s[0];
      DigitsValueBounds(p);
      var m := DigitsValue(p);
      assert n / 10 == m && n % 10 == c as int - '0' as int;
      NumeralUnique(p, m);
      assert DigitChar(n % 10) as int == c as int;
    }
  }

  /** `s` is a numeral denoting `n` followed by `unit`. */
  predicate Shows(s: string, n: nat, unit: string) {
    |s| > |unit| && s[|s| - |unit|..] == unit &&
    Numeral(s[..|s| - |unit|]) && DigitsValue(s[..|s| - |unit|]) == n
  }

  /** The count written out in decimal, followed by its unit. */
  function Counted(n: nat, unit: string): (s: string)
    ensures Shows(s, n, unit)
  {
    var d := Decimal(n);
    DecimalRoundTrip(n);
    assert (d + unit)[..|d|] == d && (d + unit)[|d|..] == unit;
    d + unit
  }

  /** The text shown for a bucket, such as "3 months". */
  function Label(t: TimeWorked): (s: string)
    ensures t == Unknown ==> s == "Unknown"
    ensures t.Days? ==> Shows(s, t.n, " days")
    ensures t.Months? ==> Shows(s, t.n, " months")
    ensures t.Years? ==> Shows(s, t.n, " years")
  {
    match t
    case Unknown => "Unknown"
    case Days(n) => Counted(n, " days")
    case Months(n) => Counted(n, " months")
    case Years(n) => Counted(n, " years")
  }

  // ---------------------------------------------------------------------
  // Photo URLs

  predicate StartsWith(s: string, prefix: string) {
    |prefix| <= |s| && s[..|prefix|] == prefix
  }

  predicate Contains(s: string, part: string)
    decreases |s|
  {
    StartsWith(s, part) || (s != [] && Contains(s[1..], part))
  }

  /**
    The URL given to the avatar image: empty for a missing or empty URL,
    otherwise the URL itself (data URLs and backend URLs alike).
   */
  function ImageUrl(photoUrl: Option<string>): (r: string)
    ensures r == "" <==> photoUrl == None || photoUrl == Some("")
    ensures photoUrl.Some? ==> r == photoUrl.value
  {
    if photoUrl.None? || photoUrl.value == "" then ""
    else if StartsWith(photoUrl.value, "data:") then photoUrl.value
    else if Contains(photoUrl.value, "kingkebab-backend.onrender.com") then photoUrl.value
    else photoUrl.value
  }

  /**
    `savedImage || fallback || ''`: a stored local image wins, then the
    other source's URL, then the empty string.
   */
  function PhotoPrecedence(savedImage: string, fallback: string): (r: string)
    ensures savedImage != "" ==> r == savedImage
    ensures savedImage == "" ==> r == fallback
    ensures r == "" <==> savedImage == "" && fallback == ""
  {
    var first := if savedImage != "" then savedImage else fallback;
    if first != "" then first else ""
  }

  // ---------------------------------------------------------------------
  // Profile records and browser storage

  datatype Contact = Contact(name: string, phone: string, relationship: string)

  /** The edit form, which is also what the fallback save stores. */
  datatype ProfileForm = ProfileForm(
    name: string,
    email: string,
    phone: string,
    bio: string,
    department: string,
    photoUrl: string,
    hireDate: string,
    skills: seq<string>,
    emergencyContact: Contact)

  datatype User = User(
    id: string,
    username: string,
    employeeId: string,
    position: string,
    name: string,
    email: string,
    phone: string,
    bio: string,
    department: string,
    photoUrl: string,
    hireDate: string,
    skills: seq<string>,
    emergencyContact: Contact,
    isActive: bool,
    lastLogin: string)

  const EmptyContact := Contact("", "", "")

  /** The form the page starts with: every text empty, no skills, an empty contact. */
  const EmptyForm := ProfileForm("", "", "", "", "", "", "", [], EmptyContact)

  /** The form fields of a user record. */
  function FormOf(u: User): ProfileForm {
    ProfileForm(u.name, u.email, u.phone, u.bio, u.department, u.photoUrl, u.hireDate, u.skills, u.emergencyContact)
  }

  /** `{...user, ...form}`: the form's fields over the user record. */
  function Overlay(u: User, f: ProfileForm): (r: User)
    ensures FormOf(r) == f
    ensures r.id == u.id && r.username == u.username && r.employeeId == u.employeeId && r.position == u.position
    ensures r.isActive == u.isActive && r.lastLogin == u.lastLogin
  {
    u.(name := f.name, email := f.email, phone := f.phone, bio := f.bio, department := f.department,
       photoUrl := f.photoUrl, hireDate := f.hireDate, skills := f.skills, emergencyContact := f.emergencyContact)
  }

  /** Overlaying a user's own form fields gives back the user. */
  lemma OverlayOwnForm(u: User)
    ensures Overlay(u, FormOf(u)) == u
  {
  }

  /** A stored value: a plain string (an image data URL) or a saved profile. */
  datatype Stored = Text(text: string) | Json(profile: ProfileForm)

  function ProfileKey(id: string): string { "userProfile_" + id }

  function ImageKey(id: string): string { "userImage_" + id }

  /** No profile key is ever an image key, so the two writes never clash. */
  lemma KeysNeverClash(a: string, b: string)
    ensures ProfileKey(a) != ImageKey(b)
  {
    assert ProfileKey(a)[4] == 'P';
    assert ImageKey(b)[4] == 'I';
  }

  /** Each user has keys of their own. */
  lemma KeysPerUser(a: string, b: string)
    requires a != b
    ensures ProfileKey(a) != ProfileKey(b) && ImageKey(a) != ImageKey(b)
  {
    assert ProfileKey(a)[12..] == a && ProfileKey(b)[12..] == b;
    assert ImageKey(a)[10..] == a && ImageKey(b)[10..] == b;
  }

  /** The saved image of a user (`getItem` on the image key), `""` when there is none. */
  function SavedImage(storage: map<string, Stored>, id: string): string {
    if ImageKey(id) in storage && storage[ImageKey(id)].Text? then storage[ImageKey(id)].text else ""
  }

  /** The saved profile of a user; with none saved, the empty object `{}` reads as the empty form. */
  function SavedProfile(storage: map<string, Stored>, id: string): ProfileForm {
    if ProfileKey(id) in storage && storage[ProfileKey(id)].Json? then storage[ProfileKey(id)].profile else EmptyForm
  }

  /** The photo URL of the saved profile, `""` when there is none. */
  function SavedProfilePhoto(storage: map<string, Stored>, id: string): string {
    SavedProfile(storage, id).photoUrl
  }

  /** The photo shown when loading from browser storage only: the saved image, else the saved profile's URL. */
  function LocalPhoto(storage: map<string, Stored>, id: string): (r: string)
    ensures SavedImage(storage, id) != "" ==> r == SavedImage(storage, id)
    ensures SavedImage(storage, id) == "" ==> r == SavedProfilePhoto(storage, id)
  {
    PhotoPrecedence(SavedImage(storage, id), SavedProfilePhoto(storage, id))
  }

  /** The photo shown once the backend's profile has arrived: the saved image, else the backend's URL. */
  function ApiPhoto(storage: map<string, Stored>, id: string, apiPhotoUrl: string): (r: string)
    ensures SavedImage(storage, id) != "" ==> r == SavedImage(storage, id)
    ensures SavedImage(storage, id) == "" ==> r == apiPhotoUrl
  {
    PhotoPrecedence(SavedImage(storage, id), apiPhotoUrl)
  }

  /** A saved local image is what both loads show, whatever the backend sends. */
  lemma LocalImageWins(storage: map<string, Stored>, id: string, apiPhotoUrl: string)
    requires SavedImage(storage, id) != ""
    ensures ApiPhoto(storage, id, apiPhotoUrl) == LocalPhoto(storage, id) == SavedImage(storage, id)
  {
  }

  /**
    The writes of the fallback save: the form under the profile key, and
    the photo under the image key only when it is a data URL. No other key
    changes.
   */
  function SaveToStorage(storage: map<string, Stored>, id: string, f: ProfileForm): (m: map<string, Stored>)
    ensures ProfileKey(id) in m && m[ProfileKey(id)] == Json(f)
    ensures StartsWith(f.photoUrl, "data:") ==> ImageKey(id) in m && m[ImageKey(id)] == Text(f.photoUrl)
    ensures !StartsWith(f.photoUrl, "data:") ==>
      (ImageKey(id) in m <==> ImageKey(id) in storage) &&
      (ImageKey(id) in storage ==> m[ImageKey(id)] == storage[ImageKey(id)])
    ensures forall k :: k != ProfileKey(id) && k != ImageKey(id) ==>
      (k in m <==> k in storage) && (k in storage ==> m[k] == storage[k])
  {
    KeysNeverClash(id, id);
    var m := storage[ProfileKey(id) := Json(f)];
    if f.photoUrl != "" && StartsWith(f.photoUrl, "data:") then m[ImageKey(id) := Text(f.photoUrl)] else m
  }

  /**
    After a fallback save, reloading from browser storage shows the saved
    data URL; any other URL shows only when no older image is stored.
   */
  lemma ReloadAfterLocalSave(storage: map<string, Stored>, id: string, f: ProfileForm)
    ensures LocalPhoto(SaveToStorage(storage, id, f), id) ==
      if StartsWith(f.photoUrl, "data:") then f.photoUrl else PhotoPrecedence(SavedImage(storage, id), f.photoUrl)
  {
    var m := SaveToStorage(storage, id, f);
    assert SavedProfilePhoto(m, id) == f.photoUrl;
    if !StartsWith(f.photoUrl, "data:") {
      assert SavedImage(m, id) == SavedImage(storage, id);
    }
  }

  // ---------------------------------------------------------------------
  // Loading

  /** What the login token says about the user. */
  datatype Claims = Claims(userId: string, username: string, employeeId: string, position: string)

  /**
    The user built from the token and browser storage alone; `now` is the
    clock's ISO string, the hire date when none was saved and the last login.
   */
  function LocalUser(storage: map<string, Stored>, c: Claims, now: string): (u: User)
    ensures u.id == c.userId && u.username == c.username && u.employeeId == c.employeeId && u.position == c.position
    ensures u.isActive && u.lastLogin == now
    ensures u.photoUrl == LocalPhoto(storage, c.userId)
    ensures FormOf(u) == SavedProfile(storage, c.userId).(
      photoUrl := LocalPhoto(storage, c.userId),
      hireDate := if SavedProfile(storage, c.userId).hireDate != "" then SavedProfile(storage, c.userId).hireDate else now)
  {
    var p := SavedProfile(storage, c.userId);
    User(c.userId, c.username, c.employeeId, c.position, p.name, p.email, p.phone, p.bio, p.department,
         LocalPhoto(storage, c.userId), if p.hireDate != "" then p.hireDate else now, p.skills, p.emergencyContact,
         true, now)
  }

  /**
    A load after a fallback save gives back the saved form, except that the
    photo follows the local-image rule and an empty hire date becomes `now`.
   */
  lemma LoadAfterLocalSave(storage: map<string, Stored>, c: Claims, f: ProfileForm, now: string)
    ensures FormOf(LocalUser(SaveToStorage(storage, c.userId, f), c, now)) ==
      f.(photoUrl := if StartsWith(f.photoUrl, "data:") then f.photoUrl else PhotoPrecedence(SavedImage(storage, c.userId), f.photoUrl),
         hireDate := if f.hireDate != "" then f.hireDate else now)
  {
    ReloadAfterLocalSave(storage, c.userId, f);
  }

  // ---------------------------------------------------------------------
  // Image upload checks

  const MaxImageBytes: int := 2 * 1024 * 1024

  datatype UploadCheck = Accepted | TooLarge | NotAnImage

  /** The checks made before anything is read or uploaded: size first, then type. */
  function CheckImage(size: int, mimeType: string): (r: UploadCheck)
    ensures r == Accepted <==> size <= MaxImageBytes && StartsWith(mimeType, "image/")
    ensures r == TooLarge <==> size > MaxImageBytes
  {
    if size > MaxImageBytes then TooLarge
    else if !StartsWith(mimeType, "image/") then NotAnImage
    else Accepted
  }

  datatype SaveOutcome = SavedRemotely | SavedLocally | NotSaved

  /**
    How the browser-storage writes of the fallback save go: all succeed, or
    the profile write or the image write throws (storage full or blocked).
   */
  datatype StorageWrites = WritesSucceed | ProfileWriteThrows | ImageWriteThrows

  datatype ImageFile = ImageFile(size: int, mimeType: string)

  class ProfilePage {
    var user: Option<User>
    var form: ProfileForm
    var storage: map<string, Stored>
    var editing: bool
    var uploading: bool

    constructor (storage0: map<string, Stored>)
      ensures user == None && form == EmptyForm && storage == storage0 && !editing && !uploading
    {
      user := None;
      form := EmptyForm;
      storage := storage0;
      editing := false;
      uploading := false;
    }

    /**
      `fetchUserProfile`: with no token nothing is loaded. Otherwise the user
      is first built from browser storage; when the backend answers, its
      record replaces it with the photo chosen by the local-image rule. The
      form then shows the loaded user.
     */
    method Load(token: Option<Claims>, api: Option<User>, now: string)
      modifies this
      ensures token.None? ==> user == old(user) && form == old(form)
      ensures token.Some? && api.None? ==> user == Some(LocalUser(storage, token.value, now))
      ensures token.Some? && api.Some? ==>
        user == Some(api.value.(photoUrl := ApiPhoto(storage, token.value.userId, api.value.photoUrl)))
      ensures token.Some? ==> user.Some? && form == FormOf(user.value)
      ensures token.Some? && api.None? ==> user.value.photoUrl == LocalPhoto(storage, token.value.userId)
      ensures token.Some? && api.Some? ==>
        user.value.photoUrl == ApiPhoto(storage, token.value.userId, api.value.photoUrl)
      ensures storage == old(storage) && editing == old(editing) && uploading == old(uploading)
    {
      if token.None? {
        return;
      }
      var local := LocalUser(storage, token.value, now);
      user := Some(local);
      form := FormOf(local);
      if api.Some? {
        var finalPhotoUrl := ApiPhoto(storage, token.value.userId, api.value.photoUrl);
        user := Some(api.value.(photoUrl := finalPhotoUrl));
        form := FormOf(user.value);
      }
    }

    /** `addSkill`: a non-empty skill not yet in the list is appended. */
    method AddSkill(skill: string)
      modifies this
      ensures form == old(form).(skills := WithSkill(old(form.skills), skill))
      ensures user == old(user) && storage == old(storage) && editing == old(editing) && uploading == old(uploading)
    {
      form := form.(skills := WithSkill(form.skills, skill));
    }

    /** `removeSkill`: every occurrence of the skill is dropped. */
    method RemoveSkill(skill: string)
      modifies this
      ensures form == old(form).(skills := WithoutSkill(old(form.skills), skill))
      ensures user == old(user) && storage == old(storage) && editing == old(editing) && uploading == old(uploading)
    {
      form := form.(skills := WithoutSkill(form.skills, skill));
    }

    /**
      The profile form's submit. `updated` is the backend's answer (`None`
      when it is unreachable) and `writes` how the storage writes go. Without
      a backend the form is written to browser storage and then overlaid on
      the current user. A write that throws ends the save: the user stays as
      it was and the form stays open, though a profile write made before a
      failed image write remains. With no user loaded the save fails and
      nothing changes.
     */
    method Submit(updated: Option<User>, writes: StorageWrites) returns (outcome: SaveOutcome)
      modifies this
      ensures form == old(form) && uploading == old(uploading)
      ensures updated.Some? ==>
        outcome == SavedRemotely && user == updated && storage == old(storage) && !editing
      ensures updated.None? && old(user).None? ==>
        outcome == NotSaved && user == old(user) && storage == old(storage) && editing == old(editing)
      ensures updated.None? && old(user).Some? ==>
        (outcome == SavedLocally <==>
          writes == WritesSucceed || (writes == ImageWriteThrows && !StartsWith(old(form).photoUrl, "data:")))
      ensures updated.None? && old(user).Some? && outcome == SavedLocally ==>
        !editing &&
        user == Some(Overlay(old(user).value, old(form))) &&
        storage == SaveToStorage(old(storage), old(user).value.id, old(form))
      ensures updated.None? && old(user).Some? && outcome != SavedLocally ==>
        outcome == NotSaved && user == old(user) && editing == old(editing) &&
        storage == if writes == ProfileWriteThrows then old(storage)
                   else old(storage)[ProfileKey(old(user).value.id) := Json(old(form))]
    {
      if updated.Some? {
        user := updated;
        editing := false;
        return SavedRemotely;
      }
      if user.None? {
        return NotSaved;
      }
      var id := user.value.id;
      var updatedUser := Overlay(user.value, form);
      if writes == ProfileWriteThrows {
        return NotSaved;
      }
      storage := storage[ProfileKey(id) := Json(form)];
      if form.photoUrl != "" && StartsWith(form.photoUrl, "data:") {
        if writes == ImageWriteThrows {
          return NotSaved;
        }
        storage := storage[ImageKey(id) := Text(form.photoUrl)];
      }
      user := Some(updatedUser);
      editing := false;
      return SavedLocally;
    }

    /**
      The start of `handleImageUpload`: no file does nothing; a file over
      2 MB or not of an `image/` type is refused before any state changes;
      otherwise the upload begins.
     */
    method BeginImageUpload(file: Option<ImageFile>) returns (check: Option<UploadCheck>)
      modifies this
      ensures check == if file.None? then None else Some(CheckImage(file.value.size, file.value.mimeType))
      ensures uploading == (old(uploading) || check == Some(Accepted))
      ensures user == old(user) && form == old(form) && storage == old(storage) && editing == old(editing)
    {
      if file.None? {
        return None;
      }
      var f := file.value;
      if f.size > MaxImageBytes {
        return Some(TooLarge);
      }
      if !StartsWith(f.mimeType, "image/") {
        return Some(NotAnImage);
      }
      uploading := true;
      return Some(Accepted);
    }
  }
}
