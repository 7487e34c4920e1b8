/** The promotion-creation form: field rules that refuse an edit instead of truncating
    it, the start/end date pair, the image cap, and the submit gate that lists every
    missing required field before the create call. Dates are day numbers. */
module Promotion {
  import opened Strings
  import opened CallLog

  const MaxTitleLength := 45
  const MaxPercentage := 99
  const MaxQuantityLength := 8
  const MaxImages := 6


  datatype Image = Image(filename: string, data: string)

  datatype BranchStatus = BranchStatus(id: int, name: string)

  datatype Branch = Branch(branchId: int, status: Option<BranchStatus>)

  /** `branch.status?.name === 'active' || branch.status?.name === 'inactive'`. */
  predicate Selectable(b: Branch) {
    b.status.Some? && (b.status.value.name == "active" || b.status.value.name == "inactive")
  }

  /** `branches.find(...)`: the position of the first selectable branch, if any. */
  function FindBranch(branches: seq<Branch>): (r: Option<nat>)
    ensures r.Some? ==> r.value < |branches| && Selectable(branches[r.value])
    ensures r.Some? ==> forall j :: 0 <= j < r.value ==> !Selectable(branches[j])
    ensures r.None? <==> forall j :: 0 <= j < |branches| ==> !Selectable(branches[j])
  {
    if |branches| == 0 then None
    else if Selectable(branches[0]) then Some(0)
    else match FindBranch(branches[1..])
      case None => None
      case Some(k) => Some(k + 1)
  }

  // ---------------------------------------------------------------- required fields

  /** The required fields, declared in the order they are reported. */
  datatype Required = TitleField | PercentageField | StartField | EndField | CategoriesField

  /** The name a missing field is reported under. */
  function Label(field: Required): string {
    match field
    case TitleField => "título"
    case PercentageField => "porcentaje de descuento"
    case StartField => "fecha de inicio"
    case EndField => "fecha de fin"
    case CategoriesField => "Categorías"
  }

  function FieldIndex(field: Required): nat {
    match field
    case TitleField => 0
    case PercentageField => 1
    case StartField => 2
    case EndField => 3
    case CategoriesField => 4
  }

  /** The fields appear in the declared order, each at most once. */
  predicate InFieldOrder(fields: seq<Required>) {
    forall i, j :: 0 <= i < j < |fields| ==> FieldIndex(fields[i]) < FieldIndex(fields[j])
  }

  /** `if (missing) missingFields.push(name)`, for a field later than every one listed. */
  function Push(listed: seq<Required>, missing: bool, field: Required): (r: seq<Required>)
    requires InFieldOrder(listed)
    requires forall m :: m in listed ==> FieldIndex(m) < FieldIndex(field)
    requires |listed| <= FieldIndex(field)
    ensures InFieldOrder(r)
    ensures |r| <= FieldIndex(field) + 1
    ensures forall m :: m in r <==> m in listed || (missing && m == field)
    ensures forall m :: m in r ==> FieldIndex(m) <= FieldIndex(field)
  {
    if missing then listed + [field] else listed
  }

  /** Every missing required field, in the fixed order; a percentage of 0 is present. */
  function MissingFields(title: string, percentage: Option<int>, start: Option<int>,
                         end: Option<int>, categories: seq<int>): (missing: seq<Required>)
    ensures TitleField in missing <==> title == []
    ensures PercentageField in missing <==> percentage.None?
    ensures StartField in missing <==> start.None?
    ensures EndField in missing <==> end.None?
    ensures CategoriesField in missing <==> categories == []
    ensures InFieldOrder(missing)
    ensures |missing| <= 5
    ensures missing == [] <==>
      title != [] && percentage.Some? && start.Some? && end.Some? && categories != []
  {
    var m := Push([], title == [], TitleField);
    var m := Push(m, percentage.None?, PercentageField);
    var m := Push(m, start.None?, StartField);
    var m := Push(m, end.None?, EndField);
    Push(m, categories == [], CategoriesField)
  }

  // ---------------------------------------------------------------- messages

  /** What a modal of the form can say; `NoMessage` is the initial empty text. */
  datatype Message =
    | NoMessage
    | TitleTooLong | PercentageOutOfRange | QuantityTooLong | QuantityNotPositive
    | TooManyImages | EndNotAfterStart | NoPartnerOrBranch
    | MissingRequired(fields: seq<Required>)
    | PromotionCreated | CreateFailed

  /** The text the user reads. */
  function Text(m: Message): string {
    match m
    case NoMessage => ""
    case TitleTooLong => "El título no puede superar los 45 caracteres."
    case PercentageOutOfRange => "El porcentaje debe estar entre 0 y 99."
    case QuantityTooLong => "La cantidad disponible no puede superar los 8 caracteres."
    case QuantityNotPositive => "La cantidad debe ser mayor a 0."
    case TooManyImages => "No se pueden agregar más de 6 imágenes."
    case EndNotAfterStart => "La fecha de fin debe ser posterior a la fecha de inicio."
    case NoPartnerOrBranch => "No se pudo obtener el ID del socio o la sucursal. Intente de nuevo."
    case MissingRequired(fields) =>
      "Los siguientes campos son obligatorios: "
      + JoinWith(seq(|fields|, i requires 0 <= i < |fields| => Label(fields[i])), ", ") + "."
    case PromotionCreated => "La promoción ha sido creada correctamente."
    case CreateFailed => "Hubo un problema al crear la promoción. Intente nuevamente por favor."
  }

  // ---------------------------------------------------------------- the create request

  datatype PromotionPayload = PromotionPayload(
    branchId: int,
    title: string,
    description: string,
    startDate: int,
    expirationDate: int,
    discountPercentage: int,
    availableQuantity: Option<int>,
    partnerId: int,
    statusId: int,
    categoryIds: seq<int>,
    images: seq<Image>)

  datatype RemoteCall =
    | CreatePromotion(payload: PromotionPayload)
    | FetchPromotions(partnerId: int)

  /** `user?.user_id` is truthy. */
  predicate HasUser(userId: Option<int>) {
    userId.Some? && userId.value != 0
  }

  /** The branch the promotion is created for, or `None` when the partner or a usable
      branch is missing. */
  function TargetBranch(userId: Option<int>, branches: seq<Branch>): (b: Option<Branch>)
    ensures b.Some? ==> HasUser(userId) && Selectable(b.value) && b.value.branchId != 0
    ensures b.Some? ==> exists i :: 0 <= i < |branches| && branches[i] == b.value
    ensures b.Some? ==> FindBranch(branches).Some? && b.value == branches[FindBranch(branches).value]
    ensures b.None? && HasUser(userId) && FindBranch(branches).Some? ==>
      branches[FindBranch(branches).value].branchId == 0
  {
    match FindBranch(branches)
    case None => None
    case Some(i) =>
      if HasUser(userId) && branches[i].branchId != 0 then Some(branches[i]) else None
  }

  // ---------------------------------------------------------------- the form

  /** The state of the promotion form and its event handlers, run one at a time. */
  class PromotionForm {
    const userId: Option<int>
    const branches: seq<Branch>
    const isIos: bool

    var title: string
    var description: string
    var discountPercentage: Option<int>
    var availableQuantity: Option<int>
    var imagePaths: seq<Image>
    var startDate: Option<int>
    var endDate: Option<int>
    var showStartDatePicker: bool
    var showEndDatePicker: bool
    var selectedCategories: seq<int>
    var loading: bool
    var modalVisible: bool
    var modalMessage: Message
    var modalSuccessVisible: bool
    var modalSuccessMessage: Message
    /** The remote calls issued so far, in order. */
    ghost var calls: Log<RemoteCall>

    /** Whenever both dates are set, the promotion ends after it starts. */
    ghost predicate DatesOrdered()
      reads this`startDate, this`endDate
    {
      startDate.Some? && endDate.Some? ==> startDate.value < endDate.value
    }

    /** A limited text field is within its limit, a set percentage in range and a set
        quantity positive. */
    ghost predicate FieldsInRange()
      reads this`title, this`discountPercentage, this`availableQuantity, this`imagePaths
    {
      && |title| <= MaxTitleLength
      && (discountPercentage.Some? ==> 0 <= discountPercentage.value <= MaxPercentage)
      && (availableQuantity.Some? ==> availableQuantity.value > 0)
      && |imagePaths| <= MaxImages
    }

    constructor (userId: Option<int>, branches: seq<Branch>, isIos: bool)
      ensures this.userId == userId && this.branches == branches && this.isIos == isIos
      ensures title == [] && description == [] && discountPercentage.None? && availableQuantity.None?
      ensures imagePaths == [] && startDate.None? && endDate.None? && selectedCategories == []
      ensures !showStartDatePicker && !showEndDatePicker && !loading
      ensures !modalVisible && !modalSuccessVisible && calls == Empty
      ensures DatesOrdered() && FieldsInRange()
    {
      this.userId, this.branches, this.isIos := userId, branches, isIos;
      title, description := [], [];
      discountPercentage, availableQuantity := None, None;
      imagePaths := [];
      startDate, endDate := None, None;
      showStartDatePicker, showEndDatePicker := false, false;
      selectedCategories := [];
      loading := false;
      modalVisible, modalMessage := false, NoMessage;
      modalSuccessVisible, modalSuccessMessage := false, NoMessage;
      calls := Empty;
    }

    /** `showErrorModal`: the error modal shows `message`, replacing any earlier one. The
        handlers below open it with the same two assignments, written inline. */
    method ShowErrorModal(message: Message)
      modifies this`modalMessage, this`modalVisible
      ensures modalVisible && modalMessage == message
    {
      modalMessage := message;
      modalVisible := true;
    }

    /** The title field: an edit of more than 45 characters is discarded with an error. */
    method HandleTitleChange(text: string)
      modifies this`title, this`modalMessage, this`modalVisible
      ensures old(FieldsInRange()) ==> FieldsInRange()
      ensures |text| <= MaxTitleLength ==>
        title == text && modalVisible == old(modalVisible) && modalMessage == old(modalMessage)
      ensures |text| > MaxTitleLength ==>
        title == old(title) && modalVisible && modalMessage == TitleTooLong
    {
      if |text| <= 45 {
        title := text;
      } else {
        modalMessage, modalVisible := TitleTooLong, true;
      }
    }

    /** The description field, stored as typed. */
    method HandleDescriptionChange(text: string)
      modifies this`description
      ensures description == text
    {
      description := text;
    }

    /** The percentage field: `Number(text)` is stored only when it lies in [0, 99];
        blank text reads as 0. */
    method HandlePercentageChange(text: string)
      modifies this`discountPercentage, this`modalMessage, this`modalVisible
      ensures old(FieldsInRange()) ==> FieldsInRange()
      ensures var v := ParseNumber(text);
        if v.Some? && 0 <= v.value <= MaxPercentage then
          discountPercentage == v && modalVisible == old(modalVisible) && modalMessage == old(modalMessage)
        else
          discountPercentage == old(discountPercentage) && modalVisible && modalMessage == PercentageOutOfRange
    {
      var value := ParseNumber(text);
      if value.Some? && value.value >= 0 && value.value <= 99 {
        discountPercentage := value;
      } else {
        modalMessage, modalVisible := PercentageOutOfRange, true;
      }
    }

    /** The quantity field: blank text clears it, text longer than 8 characters is
        refused, and otherwise `Number(text)` is stored only when it is positive. */
    method HandleQuantityChange(text: string)
      modifies this`availableQuantity, this`modalMessage, this`modalVisible
      ensures old(FieldsInRange()) ==> FieldsInRange()
      ensures text == [] ==>
        availableQuantity.None? && modalVisible == old(modalVisible) && modalMessage == old(modalMessage)
      ensures text != [] && |text| > MaxQuantityLength ==>
        availableQuantity == old(availableQuantity) && modalVisible && modalMessage == QuantityTooLong
      ensures text != [] && |text| <= MaxQuantityLength ==>
        var v := ParseNumber(text);
        if v.Some? && v.value > 0 then
          availableQuantity == v && modalVisible == old(modalVisible) && modalMessage == old(modalMessage)
        else
          availableQuantity == old(availableQuantity) && modalVisible && modalMessage == QuantityNotPositive
    {
      if text == [] {
        availableQuantity := None;
      } else {
        if |text| > 8 {
          modalMessage, modalVisible := QuantityTooLong, true;
        } else {
          var value := ParseNumber(text);
          if value.Some? && value.value > 0 {
            availableQuantity := value;
          } else {
            modalMessage, modalVisible := QuantityNotPositive, true;
          }
        }
      }
    }

    /** `handleSelectCategories`. */
    method HandleSelectCategories(categories: seq<int>)
      modifies this`selectedCategories
      ensures selectedCategories == categories
    {
      selectedCategories := categories;
    }

    /** `handleImagesCompressed`: up to six images are kept as given; more than six
        empties the list and shows an error. */
    method HandleImagesCompressed(images: seq<Image>)
      modifies this`imagePaths, this`modalMessage, this`modalVisible
      ensures old(FieldsInRange()) ==> FieldsInRange()
      ensures |imagePaths| <= MaxImages
      ensures |images| <= MaxImages ==>
        imagePaths == images && modalVisible == old(modalVisible) && modalMessage == old(modalMessage)
      ensures |images| > MaxImages ==>
        imagePaths == [] && modalVisible && modalMessage == TooManyImages
    {
      if |images| <= 6 {
        imagePaths := images;
      } else {
        imagePaths := [];
        modalMessage, modalVisible := TooManyImages, true;
      }
    }

    /** `handleStartDateChange`: a picked start date is stored and always clears the end
        date. On iOS the picker stays open while a date is being picked. */
    method HandleStartDateChange(date: Option<int>)
      modifies this`startDate, this`endDate, this`showStartDatePicker
      ensures old(DatesOrdered()) ==> DatesOrdered()
      ensures date.Some? ==> startDate == date && endDate.None?
      ensures date.None? ==> startDate == old(startDate) && endDate == old(endDate)
      ensures showStartDatePicker == (isIos && date.Some?)
    {
      if isIos && date.Some? {
        showStartDatePicker := true;
        startDate := date;
        endDate := None;
      } else {
        if date.Some? {
          startDate := date;
          endDate := None;
        }
        showStartDatePicker := false;
      }
    }

    /** `handleEndDateChange`: an end date at or before the start date is refused with an
        error and the stored end date stays as it was. */
    method HandleEndDateChange(date: Option<int>)
      modifies this`endDate, this`showEndDatePicker, this`modalMessage, this`modalVisible
      ensures old(DatesOrdered()) ==> DatesOrdered()
      ensures showEndDatePicker == (isIos && date.Some?)
      ensures date.Some? && startDate.Some? && date.value <= startDate.value ==>
        endDate == old(endDate) && modalVisible && modalMessage == EndNotAfterStart
      ensures date.Some? && !(startDate.Some? && date.value <= startDate.value) ==>
        endDate == date && modalVisible == old(modalVisible) && modalMessage == old(modalMessage)
      ensures date.None? ==>
        endDate == old(endDate) && modalVisible == old(modalVisible) && modalMessage == old(modalMessage)
    {
      if isIos && date.Some? {
        if startDate.Some? && date.value <= startDate.value {
          modalMessage, modalVisible := EndNotAfterStart, true;
          showEndDatePicker := true;
          return;
        }
        showEndDatePicker := true;
        endDate := date;
      } else {
        if date.Some? && startDate.Some? && date.value <= startDate.value {
          modalMessage, modalVisible := EndNotAfterStart, true;
          showEndDatePicker := false;
          return;
        }
        if date.Some? {
          endDate := date;
        }
        showEndDatePicker := false;
      }
    }

    /** `confirmStartDate`: closes the start picker. */
    method ConfirmStartDate()
      modifies this`showStartDatePicker
      ensures !showStartDatePicker
    {
      showStartDatePicker := false;
    }

    /** `confirmEndDate`: the rule is checked again at confirmation; a stored end date at
        or before the start date is replaced by the start date, with an error. Afterwards
        the end date is never before the start date. */
    method ConfirmEndDate()
      modifies this`endDate, this`showEndDatePicker, this`modalMessage, this`modalVisible
      ensures !showEndDatePicker
      ensures old(DatesOrdered()) ==> DatesOrdered()
      ensures startDate.Some? && endDate.Some? ==> startDate.value <= endDate.value
      ensures var refused := old(endDate).Some? && startDate.Some? && old(endDate).value <= startDate.value;
        if refused then
          endDate == startDate && modalVisible && modalMessage == EndNotAfterStart
        else
          endDate == old(endDate) && modalVisible == old(modalVisible) && modalMessage == old(modalMessage)
    {
      if endDate.Some? && startDate.Some? && endDate.value <= startDate.value {
        modalMessage, modalVisible := EndNotAfterStart, true;
        endDate := startDate;
        showEndDatePicker := false;
        return;
      }
      showEndDatePicker := false;
    }

    /** `ShowDatePicker`: opens one picker and closes the other. */
    method ShowDatePicker(show: string)
      modifies this`showStartDatePicker, this`showEndDatePicker
      ensures showStartDatePicker != showEndDatePicker
      ensures showStartDatePicker <==> show == "init"
    {
      if show == "init" {
        showStartDatePicker := true;
        showEndDatePicker := false;
      } else {
        showStartDatePicker := false;
        showEndDatePicker := true;
      }
    }

    /** The body of the create call for `branch`: the form's fields plus the branch,
        partner and branch-status ids. */
    function Payload(branch: Branch): PromotionPayload
      reads this`title, this`description, this`startDate, this`endDate, this`discountPercentage
      reads this`availableQuantity, this`selectedCategories, this`imagePaths
      requires branch.status.Some? && userId.Some?
      requires startDate.Some? && endDate.Some? && discountPercentage.Some?
    {
      PromotionPayload(
        branch.branchId, title, description, startDate.value, endDate.value,
        discountPercentage.value, availableQuantity, userId.value, branch.status.value.id,
        selectedCategories, imagePaths)
    }

    /** `handleSubmit`. Without a partner id or a usable branch nothing is sent and the
        form is left loading; with a required field missing nothing is sent and every
        missing field is listed; otherwise the create call carries exactly the form's
        fields plus the branch, partner and branch-status ids, and a successful create is
        followed by a refresh of the partner's promotions. */
    method HandleSubmit(created: bool)
      modifies this`loading, this`modalMessage, this`modalVisible,
        this`modalSuccessMessage, this`modalSuccessVisible, this`calls
      ensures TargetBranch(userId, branches).None? ==>
        && loading && calls == old(calls) && modalVisible && modalMessage == NoPartnerOrBranch
        && modalSuccessVisible == old(modalSuccessVisible) && modalSuccessMessage == old(modalSuccessMessage)
      ensures TargetBranch(userId, branches).Some? && !Complete() ==>
        && !loading && calls == old(calls) && modalVisible
        && modalMessage == MissingRequired(MissingFields(title, discountPercentage, startDate, endDate, selectedCategories))
        && modalSuccessVisible == old(modalSuccessVisible) && modalSuccessMessage == old(modalSuccessMessage)
      ensures TargetBranch(userId, branches).Some? && Complete() ==> !loading
      ensures TargetBranch(userId, branches).Some? && Complete() && created ==>
        && calls == Then(Then(old(calls), CreatePromotion(Payload(TargetBranch(userId, branches).value))),
                         FetchPromotions(userId.value))
        && modalSuccessVisible && modalSuccessMessage == PromotionCreated
        && modalVisible == old(modalVisible) && modalMessage == old(modalMessage)
      ensures TargetBranch(userId, branches).Some? && Complete() && !created ==>
        && calls == Then(old(calls), CreatePromotion(Payload(TargetBranch(userId, branches).value)))
        && modalVisible && modalMessage == CreateFailed
        && modalSuccessVisible == old(modalSuccessVisible) && modalSuccessMessage == old(modalSuccessMessage)
    {
      loading := true;
      var found := FindBranch(branches);
      if !HasUser(userId) || found.None? || branches[found.value].branchId == 0 {
        modalMessage, modalVisible := NoPartnerOrBranch, true;
        return;
      }
      var branch := branches[found.value];
      assert TargetBranch(userId, branches) == Some(branch);
      SubmitFor(branch, created);
    }

    /** The part of `handleSubmit` past the branch check: the required-field gate, then
        the create call for `branch`. */
    method SubmitFor(branch: Branch, created: bool)
      requires branch.status.Some? && userId.Some?
      modifies this`loading, this`modalMessage, this`modalVisible,
        this`modalSuccessMessage, this`modalSuccessVisible, this`calls
      ensures !loading
      ensures !Complete() ==>
        && calls == old(calls) && modalVisible
        && modalMessage == MissingRequired(MissingFields(title, discountPercentage, startDate, endDate, selectedCategories))
        && modalSuccessVisible == old(modalSuccessVisible) && modalSuccessMessage == old(modalSuccessMessage)
      ensures Complete() && created ==>
        && calls == Then(Then(old(calls), CreatePromotion(Payload(branch))), FetchPromotions(userId.value))
        && modalSuccessVisible && modalSuccessMessage == PromotionCreated
        && modalVisible == old(modalVisible) && modalMessage == old(modalMessage)
      ensures Complete() && !created ==>
        && calls == Then(old(calls), CreatePromotion(Payload(branch)))
        && modalVisible && modalMessage == CreateFailed
        && modalSuccessVisible == old(modalSuccessVisible) && modalSuccessMessage == old(modalSuccessMessage)
    {
      if title == [] || startDate.None? || endDate.None? || discountPercentage.None? || selectedCategories == [] {
        var missing := MissingFields(title, discountPercentage, startDate, endDate, selectedCategories);
        modalMessage, modalVisible := MissingRequired(missing), true;
        loading := false;
        return;
      }
      Create(branch, created);
    }

    /** Every required field is filled in. */
    predicate Complete()
      reads this`title, this`discountPercentage, this`startDate, this`endDate, this`selectedCategories
    {
      title != [] && discountPercentage.Some? && startDate.Some? && endDate.Some? && selectedCategories != []
    }

    /** The create call of `handleSubmit` and what follows it. */
    method Create(branch: Branch, created: bool)
      requires branch.status.Some? && userId.Some?
      requires startDate.Some? && endDate.Some? && discountPercentage.Some?
      modifies this`loading, this`modalMessage, this`modalVisible,
        this`modalSuccessMessage, this`modalSuccessVisible, this`calls
      ensures !loading
      ensures created ==>
        && calls == Then(Then(old(calls), CreatePromotion(Payload(branch))), FetchPromotions(userId.value))
        && modalSuccessVisible && modalSuccessMessage == PromotionCreated
        && modalVisible == old(modalVisible) && modalMessage == old(modalMessage)
      ensures !created ==>
        && calls == Then(old(calls), CreatePromotion(Payload(branch)))
        && modalVisible && modalMessage == CreateFailed
        && modalSuccessVisible == old(modalSuccessVisible) && modalSuccessMessage == old(modalSuccessMessage)
    {
      calls := Then(calls, CreatePromotion(Payload(branch)));
      if created {
        loading := false;
        calls := Then(calls, FetchPromotions(userId.value));
        modalSuccessMessage, modalSuccessVisible := PromotionCreated, true;
      } else {
        modalMessage, modalVisible := CreateFailed, true;
        loading := false;
      }
    }
  }
}
