/** The profile screen: editing the user's and partner's record under per-field length
    limits, changing the password behind a strength check, choosing business categories,
    and the two-step remote update (user first, then partner and categories). */
module Profile {
  import opened Strings
  import opened CallLog

  // ================================================================ password rules

  /** The password rules, each reported by its own message. */
  datatype Rule = TooShort | NoUppercase | NoDigit | NoSpecial

  /** The message shown for a broken rule. */
  function RuleText(rule: Rule): string {
    match rule
    case TooShort => "La contraseña debe tener al menos 8 caracteres."
    case NoUppercase => "Debe incluir al menos una letra mayúscula."
    case NoDigit => "Debe incluir al menos un número."
    case NoSpecial => "Debe incluir al menos un carácter especial."
  }

  /** The four rules, in the order they are checked. */
  const PasswordRules: seq<Rule> := [TooShort, NoUppercase, NoDigit, NoSpecial]

  /** A password that satisfies every rule, stated directly. */
  predicate IsStrong(password: string) {
    && |password| >= 8
    && (exists i :: 0 <= i < |password| && IsUpper(password[i]))
    && (exists i :: 0 <= i < |password| && IsDigit(password[i]))
    && (exists i :: 0 <= i < |password| && IsSpecial(password[i]))
  }

  /** Whether `password` breaks `rule`. */
  predicate Breaks(password: string, rule: Rule) {
    match rule
    case TooShort => |password| < 8
    case NoUppercase => !exists i :: 0 <= i < |password| && IsUpper(password[i])
    case NoDigit => !exists i :: 0 <= i < |password| && IsDigit(password[i])
    case NoSpecial => !exists i :: 0 <= i < |password| && IsSpecial(password[i])
  }

  /** Position of a rule in `PasswordRules`. */
  function RuleIndex(rule: Rule): nat {
    match rule
    case TooShort => 0
    case NoUppercase => 1
    case NoDigit => 2
    case NoSpecial => 3
  }

  /** The rules appear in the order they are checked, each at most once. */
  predicate InRuleOrder(rules: seq<Rule>) {
    forall i, j :: 0 <= i < j < |rules| ==> RuleIndex(rules[i]) < RuleIndex(rules[j])
  }

  /** `if (broken) errors.push(message)`, for a rule checked after every one listed. */
  function Report(listed: seq<Rule>, broken: bool, rule: Rule): (r: seq<Rule>)
    requires InRuleOrder(listed)
    requires forall m :: m in listed ==> RuleIndex(m) < RuleIndex(rule)
    requires |listed| <= RuleIndex(rule)
    ensures InRuleOrder(r)
    ensures |r| <= RuleIndex(rule) + 1
    ensures forall m :: m in r <==> m in listed || (broken && m == rule)
    ensures forall m :: m in r ==> RuleIndex(m) <= RuleIndex(rule)
  {
    if broken then listed + [rule] else listed
  }

  /** `validatePassword`: one message per broken rule, every broken rule reported (no
      short-circuit), in the fixed rule order. */
  function ValidatePassword(password: string): (errors: seq<Rule>)
    ensures TooShort in errors <==> Breaks(password, TooShort)
    ensures NoUppercase in errors <==> Breaks(password, NoUppercase)
    ensures NoDigit in errors <==> Breaks(password, NoDigit)
    ensures NoSpecial in errors <==> Breaks(password, NoSpecial)
    ensures InRuleOrder(errors)
    ensures |errors| <= 4
  {
    var e := Report([], |password| < 8, TooShort);
    var e := Report(e, !Any(password, Upper), NoUppercase);
    var e := Report(e, !Any(password, Digit), NoDigit);
    Report(e, !Any(password, Special), NoSpecial)
  }

  /** A password gets no message exactly when it is strong. */
  lemma ValidateAcceptsStrong(password: string)
    ensures ValidatePassword(password) == [] <==> IsStrong(password)
  {
    var errors := ValidatePassword(password);
    if errors != [] {
      assert errors[0] in errors;
      match errors[0]
      case TooShort =>
      case NoUppercase =>
      case NoDigit =>
      case NoSpecial =>
    }
  }

  /** A short password of lower-case letters breaks all four rules and gets all four
      messages, in order. */
  lemma ShortLowerCasePassword(password: string)
    requires |password| < 8
    requires forall i :: 0 <= i < |password| ==> 'a' <= password[i] <= 'z'
    ensures ValidatePassword(password) == PasswordRules
  {
    assert !Any(password, Upper) && !Any(password, Digit) && !Any(password, Special);
  }

  /** A password meeting all four rules gets none. */
  lemma StrongPassword()
    ensures ValidatePassword("Abcdefg1!") == []
  {
    var p := "Abcdefg1!";
    assert IsUpper(p[0]) && IsDigit(p[7]) && IsSpecial(p[8]);
  }

  // ================================================================ phone number

  /** The text after an optional leading `+`. */
  function PhoneDigits(phone: string): string {
    if |phone| > 0 && phone[0] == '+' then phone[1..] else phone
  }

  /** The phone check `^[+]?[0-9]{7,15}$`. */
  predicate IsPhoneNumber(phone: string) {
    var digits := PhoneDigits(phone);
    7 <= |digits| <= 15 && AllDigits(digits)
  }

  /** The update refuses a phone number only when one is given and fails the check. */
  predicate PhoneRejected(phone: string) {
    phone != [] && !IsPhoneNumber(phone)
  }

  /** `phone` is an optional `+` followed by `digits`, 7 to 15 decimal digits. */
  predicate PhoneShape(phone: string, digits: string) {
    (phone == digits || phone == "+" + digits) && 7 <= |digits| <= 15 && AllDigits(digits)
  }

  /** The hand-made check accepts exactly the strings the regular expression matches. */
  lemma PhoneMatchesPattern(phone: string)
    ensures IsPhoneNumber(phone) <==> exists digits :: PhoneShape(phone, digits)
  {
    if IsPhoneNumber(phone) {
      assert PhoneShape(phone, PhoneDigits(phone));
    }
    if digits :| PhoneShape(phone, digits) {
      if phone == digits {
        assert IsDigit(phone[0]);
      } else {
        assert phone[1..] == digits;
      }
      assert PhoneDigits(phone) == digits;
    }
  }

  // ================================================================ dates

  /** A missing part of a split date, as a template string renders `undefined`. */
  function Part(parts: seq<string>, i: nat): string {
    if i < |parts| then parts[i] else "undefined"
  }

  /** `formatDateToYYYYMMDD`: the first and third dash-separated parts change places. */
  function FormatDateToYYYYMMDD(date: string): string {
    var parts := Split(date);
    Part(parts, 2) + "-" + Part(parts, 1) + "-" + Part(parts, 0)
  }

  /** Swapping the outer parts of dash-free `a-b-c` gives `c-b-a`. */
  lemma {:induction false} FormatDateSwaps(a: string, b: string, c: string)
    requires '-' !in a && '-' !in b && '-' !in c
    ensures FormatDateToYYYYMMDD(a + "-" + b + "-" + c) == c + "-" + b + "-" + a
  {
    assert JoinWith([a, b, c], "-") == a + "-" + b + "-" + c by {
      assert [a, b, c][1..] == [b, c];
      assert [b, c][1..] == [c];
      assert JoinWith([b, c], "-") == b + "-" + JoinWith([c], "-");
      assert JoinWith([a, b, c], "-") == a + "-" + JoinWith([b, c], "-");
    }
    SplitJoin([a, b, c]);
  }

  /** On a date of exactly three parts the swap is its own inverse. */
  lemma {:induction false} FormatDateInvolution(date: string)
    requires |Split(date)| == 3
    ensures FormatDateToYYYYMMDD(FormatDateToYYYYMMDD(date)) == date
  {
    var parts := Split(date);
    var a, b, c := parts[0], parts[1], parts[2];
    assert date == a + "-" + b + "-" + c by {
      assert parts == [a, b, c];
      assert [a, b, c][1..] == [b, c];
      assert [b, c][1..] == [c];
      assert JoinWith([b, c], "-") == b + "-" + JoinWith([c], "-");
      assert JoinWith([a, b, c], "-") == a + "-" + JoinWith([b, c], "-");
    }
    FormatDateSwaps(a, b, c);
    FormatDateSwaps(c, b, a);
  }

  /** A calendar day as the date picker reports it (`getMonth() + 1` for the month). */
  datatype CalendarDate = CalendarDate(year: nat, month: nat, day: nat)

  /** `a > b` on calendar days. */
  predicate After(a: CalendarDate, b: CalendarDate) {
    || a.year > b.year
    || (a.year == b.year && a.month > b.month)
    || (a.year == b.year && a.month == b.month && a.day > b.day)
  }

  /** The birth date text stored for a picked day: `day-month-year` swapped by
      `formatDateToYYYYMMDD`. */
  function PickedDateText(d: CalendarDate): string {
    FormatDateToYYYYMMDD(NatToString(d.day) + "-" + NatToString(d.month) + "-" + NatToString(d.year))
  }

  lemma NoDashInNumber(n: nat)
    ensures '-' !in NatToString(n)
  {
  }

  /** A picked birth date is stored year first, without zero padding. */
  lemma PickedDateIsYearFirst(d: CalendarDate)
    ensures PickedDateText(d) == NatToString(d.year) + "-" + NatToString(d.month) + "-" + NatToString(d.day)
  {
    NoDashInNumber(d.day);
    NoDashInNumber(d.month);
    NoDashInNumber(d.year);
    FormatDateSwaps(NatToString(d.day), NatToString(d.month), NatToString(d.year));
  }

  // ================================================================ categories

  /** `ids.filter(x => x !== id)`. */
  function RemoveAll(ids: seq<int>, id: int): (r: seq<int>)
    ensures id !in r
    ensures forall x :: x != id ==> (x in r <==> x in ids)
  {
    if |ids| == 0 then []
    else
      var rest := RemoveAll(ids[1..], id);
      assert forall x :: x in ids <==> x == ids[0] || x in ids[1..];
      if ids[0] == id then rest else [ids[0]] + rest
  }

  /** Filtering removes every occurrence of `id` and keeps every other occurrence. */
  lemma {:induction false} RemoveAllCounts(ids: seq<int>, id: int)
    ensures multiset(RemoveAll(ids, id)) == multiset(ids)[id := 0]
    ensures |RemoveAll(ids, id)| == |ids| - multiset(ids)[id]
  {
    if |ids| > 0 {
      RemoveAllCounts(ids[1..], id);
      assert ids == [ids[0]] + ids[1..];
      assert multiset(ids) == multiset([ids[0]]) + multiset(ids[1..]);
    }
  }

  /** Filtering keeps the order: it distributes over concatenation. */
  lemma {:induction false} RemoveAllAppend(a: seq<int>, b: seq<int>, id: int)
    ensures RemoveAll(a + b, id) == RemoveAll(a, id) + RemoveAll(b, id)
  {
    if |a| > 0 {
      assert (a + b)[1..] == a[1..] + b;
      RemoveAllAppend(a[1..], b, id);
    } else {
      assert a + b == b;
    }
  }

  /** Filtering out an id that is not there changes nothing. */
  lemma {:induction false} RemoveAllAbsent(ids: seq<int>, id: int)
    requires id !in ids
    ensures RemoveAll(ids, id) == ids
  {
    if |ids| > 0 {
      RemoveAllAbsent(ids[1..], id);
      assert ids == [ids[0]] + ids[1..];
    }
  }

  /** `handleCategoryChange`'s update: an absent id is appended at the end, a present id
      loses every occurrence, and no other id is added or lost. */
  function ToggleCategory(ids: seq<int>, id: int): (r: seq<int>)
    ensures id in r <==> id !in ids
    ensures forall x :: x != id ==> (x in r <==> x in ids)
    ensures id !in ids ==> r == ids + [id]
    ensures id in ids ==> r == RemoveAll(ids, id)
  {
    if id in ids then RemoveAll(ids, id) else ids + [id]
  }

  /** Toggling an absent id twice restores the list exactly; toggling a present id twice
      moves it to the end, so a list without duplicates keeps its elements. */
  lemma ToggleTwice(ids: seq<int>, id: int)
    ensures id !in ids ==> ToggleCategory(ToggleCategory(ids, id), id) == ids
    ensures id in ids ==> ToggleCategory(ToggleCategory(ids, id), id) == RemoveAll(ids, id) + [id]
    ensures id in ids && multiset(ids)[id] == 1 ==>
      multiset(ToggleCategory(ToggleCategory(ids, id), id)) == multiset(ids)
  {
    if id !in ids {
      RemoveAllAppend(ids, [id], id);
      RemoveAllAbsent(ids, id);
      assert RemoveAll([id], id) == [];
    } else {
      RemoveAllCounts(ids, id);
    }
  }

  // ================================================================ messages

  /** What a modal of the screen can say; `NoMessage` is the initial empty text. */
  datatype Message =
    | NoMessage
    | PasswordProblems(rules: seq<Rule>)
    | ConfirmMissing | PasswordsDiffer | PasswordChanged | PasswordChangeFailed
    | ExceedsThirty | ExceedsFifty | FutureBirthDate | CountryRequired
    | InvalidPhone | DataUpdated | PartnerUpdateFailed | UpdateFailed

  /** The rule messages, one per line, as `passwordErrors.join('\n')` shows them. */
  function RulesText(rules: seq<Rule>): string {
    JoinWith(seq(|rules|, i requires 0 <= i < |rules| => RuleText(rules[i])), "\n")
  }

  /** The text the user reads. */
  function Text(m: Message): string {
    match m
    case NoMessage => ""
    case PasswordProblems(rules) => RulesText(rules)
    case ConfirmMissing => "Por favor, confirma tu nueva contraseña."
    case PasswordsDiffer => "La nueva contraseña y la confirmación no coinciden."
    case PasswordChanged => "Contraseña cambiada con éxito"
    case PasswordChangeFailed => "Error al cambiar la contraseña"
    case ExceedsThirty => "No debe exceder los 30 caracteres."
    case ExceedsFifty => "No debe exceder los 50 caracteres."
    case FutureBirthDate => "La fecha de nacimiento debe ser menor que la fecha actual."
    case CountryRequired => "El país es un campo obligatorio, por favor seleccione uno."
    case InvalidPhone => "Número de teléfono no válido. Debe contener entre 7 y 15 dígitos."
    case DataUpdated => "Datos actualizados con éxito"
    case PartnerUpdateFailed => "Error al actualizar usuario"
    case UpdateFailed => "Error al actualizar los datos"
  }

  // ================================================================ the form record

  /** The editable record: the user's fields and the partner's three fields. */
  datatype ProfileForm = ProfileForm(
    userId: int,
    firstName: string,
    lastName: string,
    email: string,
    country: string,
    city: string,
    phoneNumber: string,
    gender: string,
    birthDate: string,
    imageData: string,
    subscribedToNewsletter: bool,
    address: string,
    contactInfo: string,
    businessType: string)

  /** The text fields an input handler can change. */
  datatype Field =
    | FirstName | LastName | Email | Country | City | PhoneNumber | Gender | BirthDate
    | ImageData | Address | ContactInfo | BusinessType

  function Get(form: ProfileForm, field: Field): string {
    match field
    case FirstName => form.firstName
    case LastName => form.lastName
    case Email => form.email
    case Country => form.country
    case City => form.city
    case PhoneNumber => form.phoneNumber
    case Gender => form.gender
    case BirthDate => form.birthDate
    case ImageData => form.imageData
    case Address => form.address
    case ContactInfo => form.contactInfo
    case BusinessType => form.businessType
  }

  /** `{ ...form, [field]: value }`: the named field changes and nothing else. */
  function Set(form: ProfileForm, field: Field, value: string): (r: ProfileForm)
    ensures Get(r, field) == value
    ensures forall other :: other != field ==> Get(r, other) == Get(form, other)
    ensures r.userId == form.userId && r.subscribedToNewsletter == form.subscribedToNewsletter
  {
    match field
    case FirstName => form.(firstName := value)
    case LastName => form.(lastName := value)
    case Email => form.(email := value)
    case Country => form.(country := value)
    case City => form.(city := value)
    case PhoneNumber => form.(phoneNumber := value)
    case Gender => form.(gender := value)
    case BirthDate => form.(birthDate := value)
    case ImageData => form.(imageData := value)
    case Address => form.(address := value)
    case ContactInfo => form.(contactInfo := value)
    case BusinessType => form.(businessType := value)
  }

  /** The longest text a field accepts, for the fields that have a limit. */
  function MaxLength(field: Field): Option<nat> {
    match field
    case FirstName | LastName => Some(30)
    case City | Address => Some(50)
    case BusinessType | ContactInfo => Some(25)
    case _ => None
  }

  /** The message shown when an edit is too long; the business type and contact fields
      say 30 although their limit is 25. */
  function TooLongMessage(field: Field): Message {
    match field
    case City | Address => ExceedsFifty
    case _ => ExceedsThirty
  }

  predicate TooLong(field: Field, value: string) {
    MaxLength(field).Some? && |value| > MaxLength(field).value
  }

  /** The store's user record. Absent text fields are read as empty and an absent
      newsletter flag as false, as the form's `|| ''` and `|| false` do; `imageUrl` is
      the text the image template renders, which for an absent path is `undefined`. */
  datatype UserRecord = UserRecord(
    userId: int,
    firstName: string,
    lastName: string,
    email: string,
    country: string,
    city: string,
    phoneNumber: string,
    gender: string,
    birthDate: string,
    imageUrl: string,
    subscribedToNewsletter: bool)

  datatype PartnerRecord = PartnerRecord(address: string, contactInfo: string, businessType: string)

  /** The form as seeded from the store on mount and on cancel. */
  function SeedForm(user: UserRecord, partner: PartnerRecord, apiUrl: string): (form: ProfileForm)
    ensures form.imageData == apiUrl + user.imageUrl
    ensures form.userId == user.userId && form.firstName == user.firstName
    ensures form.address == partner.address && form.businessType == partner.businessType
  {
    ProfileForm(
      user.userId, user.firstName, user.lastName, user.email, user.country, user.city,
      user.phoneNumber, user.gender, user.birthDate, apiUrl + user.imageUrl,
      user.subscribedToNewsletter, partner.address, partner.contactInfo, partner.businessType)
  }

  // ================================================================ remote calls

  /** The body of the user update: the form without the partner's fields, the image sent
      only when it is not an already uploaded `http` address. */
  datatype UserUpdate = UserUpdate(
    userId: int,
    firstName: string,
    lastName: string,
    email: string,
    country: string,
    city: string,
    phoneNumber: string,
    gender: string,
    birthDate: string,
    imageData: Option<string>,
    subscribedToNewsletter: bool)

  datatype PartnerUpdate = PartnerUpdate(
    address: string, contactInfo: string, businessType: string, categoryIds: seq<int>)

  function UserPayload(form: ProfileForm): UserUpdate {
    UserUpdate(
      form.userId, form.firstName, form.lastName, form.email, form.country, form.city,
      form.phoneNumber, form.gender, form.birthDate,
      if StartsWith(form.imageData, "http") then None else Some(form.imageData),
      form.subscribedToNewsletter)
  }

  /** The image goes out exactly when it is not already an `http` address, and then
      unchanged. */
  lemma UserPayloadImage(form: ProfileForm)
    ensures UserPayload(form).imageData.None? <==> StartsWith(form.imageData, "http")
    ensures UserPayload(form).imageData.Some? ==> UserPayload(form).imageData.value == form.imageData
  {
  }

  /** A form seeded from the store, saved without editing its image, does not send the
      image again: the stored path behind an `http` API address is already uploaded. */
  lemma SeededImageNotResent(user: UserRecord, partner: PartnerRecord, apiUrl: string)
    requires StartsWith(apiUrl, "http")
    ensures UserPayload(SeedForm(user, partner, apiUrl)).imageData.None?
  {
  }

  /** The seed loses nothing: two seeds for one API address agree only when the store's
      records agree. */
  lemma SeedInjective(user1: UserRecord, partner1: PartnerRecord,
                      user2: UserRecord, partner2: PartnerRecord, apiUrl: string)
    requires SeedForm(user1, partner1, apiUrl) == SeedForm(user2, partner2, apiUrl)
    ensures user1 == user2 && partner1 == partner2
  {
    var image1, image2 := apiUrl + user1.imageUrl, apiUrl + user2.imageUrl;
    assert user1.imageUrl == image1[|apiUrl|..];
    assert user2.imageUrl == image2[|apiUrl|..];
  }

  function PartnerPayload(form: ProfileForm, categories: seq<int>): PartnerUpdate {
    PartnerUpdate(form.address, form.contactInfo, form.businessType, categories)
  }

  /** The form the two bodies describe together. */
  function Reassemble(u: UserUpdate, p: PartnerUpdate): ProfileForm {
    ProfileForm(
      u.userId, u.firstName, u.lastName, u.email, u.country, u.city, u.phoneNumber,
      u.gender, u.birthDate, if u.imageData.Some? then u.imageData.value else "",
      u.subscribedToNewsletter, p.address, p.contactInfo, p.businessType)
  }

  /** Between them the two bodies carry the whole form, each field once; only an image
      that is already an `http` address is left out. */
  lemma PayloadsCarryForm(form: ProfileForm, categories: seq<int>)
    ensures !StartsWith(form.imageData, "http") ==>
      Reassemble(UserPayload(form), PartnerPayload(form, categories)) == form
    ensures StartsWith(form.imageData, "http") ==>
      Reassemble(UserPayload(form), PartnerPayload(form, categories)) == form.(imageData := "")
    ensures PartnerPayload(form, categories).categoryIds == categories
  {
  }

  datatype Reply = Status(code: int) | Threw

  /** `response.status == 200`. */
  predicate Ok(r: Reply) {
    r == Status(200)
  }

  datatype RemoteCall =
    | ChangePassword(userId: int, newPassword: string, currentPassword: string)
    | UpdateUser(body: UserUpdate)
    | UpdatePartner(partnerId: int, partnerBody: PartnerUpdate)
    | FetchUserCategories(ownerId: int)


  datatype Notice = ErrorNotice(message: Message) | SuccessNotice(message: Message)

  /** What the user is told once the update calls have run. */
  function UpdateNotice(userReply: Reply, partnerReply: Reply): Notice {
    if !Ok(userReply) then ErrorNotice(UpdateFailed)
    else if partnerReply.Threw? then ErrorNotice(UpdateFailed)
    else if Ok(partnerReply) then SuccessNotice(DataUpdated)
    else ErrorNotice(PartnerUpdateFailed)
  }

  /** Success is reported exactly when both updates replied 200; the partner-specific
      failure exactly when the user update succeeded and the partner update replied with
      another status. */
  lemma UpdateNoticeCases(userReply: Reply, partnerReply: Reply)
    ensures UpdateNotice(userReply, partnerReply).SuccessNotice? <==> Ok(userReply) && Ok(partnerReply)
    ensures UpdateNotice(userReply, partnerReply) == ErrorNotice(PartnerUpdateFailed) <==>
      Ok(userReply) && partnerReply.Status? && !Ok(partnerReply)
  {
  }

  /** The calls the update issues: the partner update only after the user update returned
      200, the category refresh only after both did. */
  function UpdateCalls(form: ProfileForm, categories: seq<int>, storeUserId: int,
                       userReply: Reply, partnerReply: Reply): seq<RemoteCall>
  {
    var user := UpdateUser(UserPayload(form));
    var partner := UpdatePartner(form.userId, PartnerPayload(form, categories));
    if !Ok(userReply) then [user]
    else if !Ok(partnerReply) then [user, partner]
    else [user, partner, FetchUserCategories(storeUserId)]
  }

  /** The user update always goes first; the partner update follows exactly when the
      user update replied 200, and the category refresh exactly when both did. */
  lemma UpdateCallsOrder(form: ProfileForm, categories: seq<int>, storeUserId: int,
                         userReply: Reply, partnerReply: Reply)
    ensures var cs := UpdateCalls(form, categories, storeUserId, userReply, partnerReply);
      && 1 <= |cs| <= 3 && cs[0] == UpdateUser(UserPayload(form))
      && (|cs| >= 2 <==> Ok(userReply))
      && (|cs| >= 2 ==> cs[1] == UpdatePartner(form.userId, PartnerPayload(form, categories)))
      && (|cs| == 3 <==> Ok(userReply) && Ok(partnerReply))
      && (|cs| == 3 ==> cs[2] == FetchUserCategories(storeUserId))
  {
  }

  // ================================================================ the screen

  /** The state of the profile screen and its event handlers, run one at a time. */
  class ProfileScreen {
    /** The store's user and partner records when the screen mounted. */
    const user: UserRecord
    const partner: PartnerRecord
    const apiUrl: string
    const isIos: bool

    var formData: ProfileForm
    var newPassword: string
    var currentPassword: string
    var confirmPassword: string
    var isChangingPassword: bool
    var isEditing: bool
    var showDatePicker: bool
    var selectedCategories: seq<int>
    var loading: bool
    var passwordErrors: seq<Rule>
    var isPasswordValid: bool
    var modalErrorVisible: bool
    var modalErrorMessage: Message
    var modalSuccessVisible: bool
    var modalSuccessMessage: Message
    /** The remote calls issued so far, in order. */
    ghost var calls: Log<RemoteCall>

    /** The password flags never claim more than `validatePassword` says of the new
        password; after a change the new password is cleared but the flag is kept. */
    ghost predicate Valid()
      reads this`isPasswordValid, this`passwordErrors, this`newPassword
    {
      isPasswordValid ==> passwordErrors == [] && (newPassword == [] || IsStrong(newPassword))
    }

    constructor (user: UserRecord, partner: PartnerRecord, apiUrl: string,
                 userCategories: seq<int>, isIos: bool)
      ensures Valid()
      ensures this.user == user && this.partner == partner && this.apiUrl == apiUrl && this.isIos == isIos
      ensures formData == SeedForm(user, partner, apiUrl)
      ensures selectedCategories == userCategories
      ensures newPassword == currentPassword == confirmPassword == []
      ensures !isChangingPassword && !isEditing && !showDatePicker && !loading
      ensures passwordErrors == [] && !isPasswordValid
      ensures !modalErrorVisible && !modalSuccessVisible
      ensures calls == Empty
    {
      this.user, this.partner, this.apiUrl, this.isIos := user, partner, apiUrl, isIos;
      formData := SeedForm(user, partner, apiUrl);
      selectedCategories := userCategories;
      newPassword, currentPassword, confirmPassword := [], [], [];
      isChangingPassword, isEditing, showDatePicker, loading := false, false, false, false;
      passwordErrors, isPasswordValid := [], false;
      modalErrorVisible, modalErrorMessage := false, NoMessage;
      modalSuccessVisible, modalSuccessMessage := false, NoMessage;
      calls := Empty;
    }

    /** The edit button: enters edit mode. */
    method StartEdit()
      modifies this`isEditing
      ensures isEditing
    {
      isEditing := true;
    }

    /** The key button: opens or closes the password section. */
    method TogglePasswordSection()
      modifies this`isChangingPassword
      ensures isChangingPassword == !old(isChangingPassword)
    {
      isChangingPassword := !isChangingPassword;
    }

    /** The birth-date field: opens the date picker. */
    method OpenDatePicker()
      modifies this`showDatePicker
      ensures showDatePicker
    {
      showDatePicker := true;
    }

    /** `showErrorModal`: the error modal shows `message`, replacing any earlier one. The
        handlers below open the modals with the same two assignments, written inline. */
    method ShowErrorModal(message: Message)
      modifies this`modalErrorMessage, this`modalErrorVisible
      ensures modalErrorVisible && modalErrorMessage == message
    {
      modalErrorMessage := message;
      modalErrorVisible := true;
    }

    /** `showSuccessModal`. */
    method ShowSuccessModal(message: Message)
      modifies this`modalSuccessMessage, this`modalSuccessVisible
      ensures modalSuccessVisible && modalSuccessMessage == message
    {
      modalSuccessMessage := message;
      modalSuccessVisible := true;
    }

    /** The new-password field: stores the text and re-validates it. */
    method HandleNewPasswordChange(text: string)
      modifies this`newPassword, this`passwordErrors, this`isPasswordValid
      ensures Valid()
      ensures newPassword == text && passwordErrors == ValidatePassword(text)
      ensures isPasswordValid <==> IsStrong(text)
    {
      newPassword := text;
      var errors := ValidatePassword(text);
      ValidateAcceptsStrong(text);
      passwordErrors := errors;
      isPasswordValid := |errors| == 0;
    }

    /** The current-password field. */
    method SetCurrentPassword(text: string)
      requires Valid()
      modifies this`currentPassword
      ensures Valid() && currentPassword == text
    {
      currentPassword := text;
    }

    /** The confirmation field. */
    method SetConfirmPassword(text: string)
      requires Valid()
      modifies this`confirmPassword
      ensures Valid() && confirmPassword == text
    {
      confirmPassword := text;
    }

    /** The password change goes out: the new password passed validation and the
        confirmation is non-empty and repeats it. */
    predicate Issues()
      reads this`isPasswordValid, this`confirmPassword, this`newPassword
    {
      isPasswordValid && confirmPassword != [] && newPassword == confirmPassword
    }

    /** `handleChangePassword`: the remote call is made only for a strong new password
        that the confirmation repeats; once it is made, the three password fields are
        cleared and the password section closes whatever the reply. */
    method HandleChangePassword(reply: Reply)
      requires Valid()
      modifies this`loading, this`newPassword, this`currentPassword, this`confirmPassword,
        this`isChangingPassword, this`modalErrorVisible, this`modalErrorMessage,
        this`modalSuccessVisible, this`modalSuccessMessage, this`calls
      ensures Valid()
      ensures !old(Issues()) ==>
        && calls == old(calls)
        && newPassword == old(newPassword) && currentPassword == old(currentPassword)
        && confirmPassword == old(confirmPassword) && isChangingPassword == old(isChangingPassword)
        && loading == old(loading) && modalErrorVisible
        && modalSuccessVisible == old(modalSuccessVisible) && modalSuccessMessage == old(modalSuccessMessage)
      ensures !old(isPasswordValid) ==> modalErrorMessage == PasswordProblems(passwordErrors)
      ensures old(isPasswordValid) && old(confirmPassword) == [] ==> modalErrorMessage == ConfirmMissing
      ensures old(isPasswordValid) && old(confirmPassword) != [] && old(newPassword) != old(confirmPassword) ==>
        modalErrorMessage == PasswordsDiffer
      ensures old(Issues()) ==>
        && IsStrong(old(newPassword))
        && calls == Then(old(calls), ChangePassword(user.userId, old(newPassword), old(currentPassword)))
        && newPassword == [] && currentPassword == [] && confirmPassword == []
        && !isChangingPassword && !loading
      ensures old(Issues()) && Ok(reply) ==>
        && modalSuccessVisible && modalSuccessMessage == PasswordChanged
        && modalErrorVisible == old(modalErrorVisible) && modalErrorMessage == old(modalErrorMessage)
      ensures old(Issues()) && !Ok(reply) ==>
        && modalErrorVisible && modalErrorMessage == PasswordChangeFailed
        && modalSuccessVisible == old(modalSuccessVisible) && modalSuccessMessage == old(modalSuccessMessage)
    {
      if !isPasswordValid {
        modalErrorMessage, modalErrorVisible := PasswordProblems(passwordErrors), true;
        return;
      }
      if confirmPassword == [] {
        modalErrorMessage, modalErrorVisible := ConfirmMissing, true;
        return;
      }
      if newPassword != confirmPassword {
        modalErrorMessage, modalErrorVisible := PasswordsDiffer, true;
        return;
      }
      loading := true;
      calls := Then(calls, ChangePassword(user.userId, newPassword, currentPassword));
      if Ok(reply) {
        modalSuccessMessage, modalSuccessVisible := PasswordChanged, true;
      } else {
        modalErrorMessage, modalErrorVisible := PasswordChangeFailed, true;
      }
      loading := false;
      newPassword, currentPassword, confirmPassword := [], [], [];
      isChangingPassword := false;
    }

    /** `handleCancelChangePassword`: everything about the password change is reset. */
    method HandleCancelChangePassword()
      modifies this`currentPassword, this`newPassword, this`confirmPassword,
        this`passwordErrors, this`isPasswordValid, this`isChangingPassword
      ensures Valid()
      ensures currentPassword == newPassword == confirmPassword == []
      ensures passwordErrors == [] && !isPasswordValid && !isChangingPassword
    {
      currentPassword, newPassword, confirmPassword := [], [], [];
      passwordErrors := [];
      isPasswordValid := false;
      isChangingPassword := false;
    }

    /** `handleInputChange`: an edit longer than the field's limit is discarded with an
        error (the field is not truncated); any other edit changes that field only. */
    method HandleInputChange(field: Field, value: string)
      modifies this`formData, this`modalErrorVisible, this`modalErrorMessage
      ensures TooLong(field, value) ==>
        formData == old(formData) && modalErrorVisible && modalErrorMessage == TooLongMessage(field)
      ensures !TooLong(field, value) ==>
        formData == Set(old(formData), field, value)
        && modalErrorVisible == old(modalErrorVisible) && modalErrorMessage == old(modalErrorMessage)
    {
      if (field == FirstName || field == LastName) && |value| > 30 {
        modalErrorMessage, modalErrorVisible := ExceedsThirty, true;
        return;
      }
      if (field == City || field == Address) && |value| > 50 {
        modalErrorMessage, modalErrorVisible := ExceedsFifty, true;
        return;
      }
      if (field == BusinessType || field == ContactInfo) && |value| > 25 {
        modalErrorMessage, modalErrorVisible := ExceedsThirty, true;
        return;
      }
      formData := Set(formData, field, value);
    }

    /** `handleDateChange`: a picked birth date later than `today` is refused; any other
        picked date is stored year first. The picker closes except on iOS. */
    method HandleDateChange(picked: Option<CalendarDate>, today: CalendarDate)
      modifies this`showDatePicker, this`formData, this`modalErrorVisible, this`modalErrorMessage
      ensures showDatePicker == (old(showDatePicker) && isIos)
      ensures picked.None? ==>
        formData == old(formData)
        && modalErrorVisible == old(modalErrorVisible) && modalErrorMessage == old(modalErrorMessage)
      ensures picked.Some? && After(picked.value, today) ==>
        formData == old(formData) && modalErrorVisible && modalErrorMessage == FutureBirthDate
      ensures picked.Some? && !After(picked.value, today) ==>
        var d := picked.value;
        && formData == old(formData).(birthDate := NatToString(d.year) + "-" + NatToString(d.month) + "-" + NatToString(d.day))
        && modalErrorVisible == old(modalErrorVisible) && modalErrorMessage == old(modalErrorMessage)
    {
      if !isIos {
        showDatePicker := false;
      }
      if picked.Some? {
        var d := picked.value;
        if After(d, today) {
          modalErrorMessage, modalErrorVisible := FutureBirthDate, true;
          return;
        }
        PickedDateIsYearFirst(d);
        HandleInputChange(BirthDate, PickedDateText(d));
      }
    }

    /** `handleUpdate`: a non-empty phone number that is not 7 to 15 digits after an
        optional `+` stops the update before any call; otherwise the user update is sent,
        the partner update follows only a 200 reply, success is reported only when both
        replied 200, and loading and editing end off on every such path. */
    method HandleUpdate(userReply: Reply, partnerReply: Reply)
      modifies this`loading, this`isEditing, this`modalErrorVisible, this`modalErrorMessage,
        this`modalSuccessVisible, this`modalSuccessMessage, this`calls
      ensures PhoneRejected(formData.phoneNumber) ==>
        && calls == old(calls)
        && loading == old(loading) && isEditing == old(isEditing)
        && modalErrorVisible && modalErrorMessage == InvalidPhone
        && modalSuccessVisible == old(modalSuccessVisible) && modalSuccessMessage == old(modalSuccessMessage)
      ensures !PhoneRejected(formData.phoneNumber) ==>
        && calls == Extend(old(calls), UpdateCalls(formData, selectedCategories, user.userId, userReply, partnerReply))
        && !loading && !isEditing
      ensures !PhoneRejected(formData.phoneNumber) && UpdateNotice(userReply, partnerReply).SuccessNotice? ==>
        && modalSuccessVisible && modalSuccessMessage == UpdateNotice(userReply, partnerReply).message
        && modalErrorVisible == old(modalErrorVisible) && modalErrorMessage == old(modalErrorMessage)
      ensures !PhoneRejected(formData.phoneNumber) && UpdateNotice(userReply, partnerReply).ErrorNotice? ==>
        && modalErrorVisible && modalErrorMessage == UpdateNotice(userReply, partnerReply).message
        && modalSuccessVisible == old(modalSuccessVisible) && modalSuccessMessage == old(modalSuccessMessage)
    {
      if formData.phoneNumber != [] {
        if !IsPhoneNumber(formData.phoneNumber) {
          modalErrorMessage, modalErrorVisible := InvalidPhone, true;
          return;
        }
      }
      SendUpdate(userReply, partnerReply);
    }

    /** The part of `handleUpdate` past the phone check: the two update calls, the
        category refresh and the message reporting how they went. */
    method SendUpdate(userReply: Reply, partnerReply: Reply)
      modifies this`loading, this`isEditing, this`modalErrorVisible, this`modalErrorMessage,
        this`modalSuccessVisible, this`modalSuccessMessage, this`calls
      ensures calls == Extend(old(calls), UpdateCalls(formData, selectedCategories, user.userId, userReply, partnerReply))
      ensures !loading && !isEditing
      ensures UpdateNotice(userReply, partnerReply).SuccessNotice? ==>
        && modalSuccessVisible && modalSuccessMessage == UpdateNotice(userReply, partnerReply).message
        && modalErrorVisible == old(modalErrorVisible) && modalErrorMessage == old(modalErrorMessage)
      ensures UpdateNotice(userReply, partnerReply).ErrorNotice? ==>
        && modalErrorVisible && modalErrorMessage == UpdateNotice(userReply, partnerReply).message
        && modalSuccessVisible == old(modalSuccessVisible) && modalSuccessMessage == old(modalSuccessMessage)
    {
      ExtendSmall(calls, UpdateUser(UserPayload(formData)),
        UpdatePartner(formData.userId, PartnerPayload(formData, selectedCategories)),
        FetchUserCategories(user.userId));
      loading := true;
      calls := Then(calls, UpdateUser(UserPayload(formData)));
      if Ok(userReply) {
        calls := Then(calls, UpdatePartner(formData.userId, PartnerPayload(formData, selectedCategories)));
        if partnerReply.Threw? {
          loading := false;
          modalErrorMessage, modalErrorVisible := UpdateFailed, true;
        } else if Ok(partnerReply) {
          calls := Then(calls, FetchUserCategories(user.userId));
          loading := false;
          modalSuccessMessage, modalSuccessVisible := DataUpdated, true;
        } else {
          modalErrorMessage, modalErrorVisible := PartnerUpdateFailed, true;
          loading := false;
        }
      } else {
        // a non-200 status and a thrown error end with the same message
        modalErrorMessage, modalErrorVisible := UpdateFailed, true;
        loading := false;
      }
      loading := false;
      isEditing := false;
    }

    /** `handleCategoryChange`. */
    method HandleCategoryChange(id: int)
      modifies this`selectedCategories
      ensures selectedCategories == ToggleCategory(old(selectedCategories), id)
    {
      selectedCategories := ToggleCategory(selectedCategories, id);
    }

    /** `handleCountryChange`: an empty country is refused; any other is stored. */
    method HandleCountryChange(value: string)
      modifies this`formData, this`modalErrorVisible, this`modalErrorMessage
      ensures value == [] ==>
        formData == old(formData) && modalErrorVisible && modalErrorMessage == CountryRequired
      ensures value != [] ==>
        formData == old(formData).(country := value)
        && modalErrorVisible == old(modalErrorVisible) && modalErrorMessage == old(modalErrorMessage)
    {
      if value == [] {
        modalErrorMessage, modalErrorVisible := CountryRequired, true;
        return;
      }
      HandleInputChange(Country, value);
    }

    /** `resetFormData`: the form is rebuilt from the store's user and partner records
        as the selectors return them now, which may differ from those at mount. */
    method ResetFormData(storeUser: UserRecord, storePartner: PartnerRecord)
      modifies this`formData
      ensures formData == SeedForm(storeUser, storePartner, apiUrl)
    {
      formData := SeedForm(storeUser, storePartner, apiUrl);
    }

    /** `cancelEdit`: leaves edit mode and replaces every unsaved edit by the store's
        current records. */
    method CancelEdit(storeUser: UserRecord, storePartner: PartnerRecord)
      modifies this`isEditing, this`formData
      ensures !isEditing && formData == SeedForm(storeUser, storePartner, apiUrl)
    {
      isEditing := false;
      ResetFormData(storeUser, storePartner);
    }
  }
}
