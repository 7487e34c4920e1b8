/** Clients of the three screens: each drives a screen through a user's sequence of
    events and checks, from the handlers' contracts alone, what the user sees and which
    remote calls were made. */
module Scenarios {
  import opened Strings
  import Profile
  import Promotion
  import Login
  import opened CallLog

  /** Filling in the five required fields of a new form, with a 50% discount typed as
      text, stores each of them and nothing else. */
  method FillSaleForm(branch: Promotion.Branch) returns (form: Promotion.PromotionForm)
    ensures fresh(form)
    ensures form.userId == Some(42) && form.branches == [branch] && form.calls == Empty
    ensures form.title == "Sale" && form.discountPercentage == Some(50)
    ensures form.startDate == Some(100) && form.endDate == Some(109) && form.selectedCategories == [7]
    ensures form.description == [] && form.imagePaths == [] && form.availableQuantity.None?
  {
    form := new Promotion.PromotionForm(Some(42), [branch], false);
    form.HandleTitleChange("Sale");
    var fifty := NatToString(50);
    ParseNatToString(50);
    form.HandlePercentageChange(fifty);
    PickSaleDates(form);
  }

  /** Picking a start date, then a later end date, then one category. */
  method PickSaleDates(form: Promotion.PromotionForm)
    requires !form.isIos && form.startDate.None? && form.endDate.None?
    modifies form
    ensures form.startDate == Some(100) && form.endDate == Some(109) && form.selectedCategories == [7]
    ensures form.title == old(form.title) && form.discountPercentage == old(form.discountPercentage)
    ensures form.description == old(form.description) && form.imagePaths == old(form.imagePaths)
    ensures form.availableQuantity == old(form.availableQuantity) && form.calls == old(form.calls)
  {
    form.HandleStartDateChange(Some(100));
    form.HandleEndDateChange(Some(109));
    form.HandleSelectCategories([7]);
  }

  /** A complete promotion: the create call carries exactly the entered fields and the
      branch, partner and branch-status ids, and the promotions are refreshed after it. */
  method CreateSalePromotion() {
    var branch := Promotion.Branch(3, Some(Promotion.BranchStatus(1, "active")));
    var form := FillSaleForm(branch);
    assert Promotion.FindBranch([branch]) == Some(0);
    form.HandleSubmit(true);
    assert form.calls == Then(Then(Empty,
      Promotion.CreatePromotion(Promotion.PromotionPayload(
        3, "Sale", [], 100, 109, 50, None, 42, 1, [7], []))),
      Promotion.FetchPromotions(42));
    assert form.modalSuccessVisible && form.modalSuccessMessage == Promotion.PromotionCreated;
    assert !form.loading;
  }

  /** A new start date discards the end date, and an end date on the start day is
      refused without touching the stored one. */
  method RepickDates() {
    var form := new Promotion.PromotionForm(Some(42), [], false);
    form.HandleStartDateChange(Some(10));
    form.HandleEndDateChange(Some(20));
    assert form.endDate == Some(20);
    form.HandleStartDateChange(Some(15));
    assert form.endDate.None?;
    form.HandleEndDateChange(Some(15));
    assert form.endDate.None? && form.modalMessage == Promotion.EndNotAfterStart;
    assert form.DatesOrdered();
  }

  /** Submitting an empty form lists every required field and sends nothing. */
  method SubmitEmptyForm() {
    var branch := Promotion.Branch(3, Some(Promotion.BranchStatus(1, "inactive")));
    var form := new Promotion.PromotionForm(Some(42), [branch], true);
    assert Promotion.FindBranch([branch]) == Some(0);
    form.HandleSubmit(true);
    assert form.calls == Empty;
    assert form.modalMessage == Promotion.MissingRequired(Promotion.MissingFields([], None, None, None, []));
  }

  /** The user record is updated but the partner update fails: the user is told of a
      failure although the first call went through, and edit mode ends. */
  method PartialProfileUpdate(user: Profile.UserRecord, partner: Profile.PartnerRecord)
    requires user.phoneNumber == []
  {
    var screen := new Profile.ProfileScreen(user, partner, "https://api", [1, 2], false);
    screen.StartEdit();
    assert screen.isEditing && screen.formData.phoneNumber == [];
    screen.HandleUpdate(Profile.Status(200), Profile.Status(500));
    assert screen.calls.before.before == Empty;
    assert screen.calls.before.last.UpdateUser? && screen.calls.last.UpdatePartner?;
    assert screen.modalErrorVisible && screen.modalErrorMessage == Profile.PartnerUpdateFailed;
    assert !screen.loading && !screen.isEditing;
  }

  /** A weak new password is refused before any call, with every broken rule listed. */
  method WeakPassword(user: Profile.UserRecord, partner: Profile.PartnerRecord, password: string)
    requires |password| < 8
    requires forall i :: 0 <= i < |password| ==> 'a' <= password[i] <= 'z'
  {
    var screen := new Profile.ProfileScreen(user, partner, "", [], true);
    screen.HandleNewPasswordChange(password);
    Profile.ShortLowerCasePassword(password);
    screen.SetConfirmPassword(password);
    screen.HandleChangePassword(Profile.Status(200));
    assert screen.calls == Empty;
    assert screen.modalErrorMessage == Profile.PasswordProblems(Profile.PasswordRules);
  }

  /** A strong, confirmed password is sent; the fields are emptied even when the call
      fails. */
  method ConfirmedPassword(user: Profile.UserRecord, partner: Profile.PartnerRecord,
                           password: string, current: string)
    requires Profile.IsStrong(password)
  {
    var screen := new Profile.ProfileScreen(user, partner, "", [], true);
    EnterPasswords(screen, password, current);
    screen.HandleChangePassword(Profile.Threw);
    assert screen.calls.before == Empty;
    assert screen.calls.last == Profile.ChangePassword(user.userId, password, current);
    assert screen.newPassword == [] && screen.confirmPassword == [] && screen.currentPassword == [];
    assert screen.modalErrorMessage == Profile.PasswordChangeFailed;
  }

  /** Typing the current password, then a strong new one, then its confirmation. */
  method EnterPasswords(screen: Profile.ProfileScreen, password: string, current: string)
    requires screen.Valid() && Profile.IsStrong(password)
    modifies screen
    ensures screen.Valid() && screen.Issues() && screen.calls == old(screen.calls)
    ensures screen.newPassword == password && screen.currentPassword == current
  {
    assert password != [];
    screen.SetCurrentPassword(current);
    screen.HandleNewPasswordChange(password);
    screen.SetConfirmPassword(password);
  }

  /** A long first name is discarded, not truncated; a short one replaces only that field. */
  method EditNames(user: Profile.UserRecord, partner: Profile.PartnerRecord) {
    var screen := new Profile.ProfileScreen(user, partner, "", [], false);
    var before := screen.formData;
    var long := seq(31, i => 'a');
    screen.HandleInputChange(Profile.FirstName, long);
    assert screen.formData == before;
    screen.HandleInputChange(Profile.FirstName, "Ana");
    assert screen.formData.firstName == "Ana" && screen.formData.lastName == before.lastName;
    screen.CancelEdit(user, partner);
    assert screen.formData == before;
  }

  /** An inactive account is turned away after a successful credential check, keeping
      what the user typed. */
  method InactiveLogin(address: string, password: string, roles: seq<string>)
    requires Login.IsEmailValid(Login.NormalizeEmail(address))
  {
    var screen := new Login.LoginScreen();
    screen.SetEmail(address);
    screen.SetPassword(password);
    assert "inactive" != "active";
    screen.HandleLogin(Login.Authenticated("inactive", roles));
    assert screen.calls.before == Empty && screen.calls.last == Login.LogIn(Login.NormalizeEmail(address), password);
    assert !screen.navigationScheduled && screen.modalMessage == Login.InactiveAccount;
    assert screen.email == address && screen.password == password && !screen.loading;
  }

  /** An active associate gets in: the fields and the error are cleared. */
  method AssociateLogin(address: string, password: string)
    requires Login.IsEmailValid(Login.NormalizeEmail(address))
  {
    var screen := new Login.LoginScreen();
    screen.SetEmail(address);
    screen.SetPassword(password);
    screen.HandleLogin(Login.Authenticated("active", ["client", "associated"]));
    assert screen.navigationScheduled && screen.error.None?;
    assert screen.email == [] && screen.password == [];
  }
}
