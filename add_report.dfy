/**
 * The report form of app/.../ui/viewmodel/AddReportViewModel.kt: field
 * setters, `validateForm`, the error priority and the item built by
 * `submitReport`, and `resetState`. The image URI is kept as its text; what
 * the repository's `addItem` answers and the clock are parameters.
 */
module AddReport {
  import opened Optional
  import opened Text
  import opened WhatsApp
  import opened Items

  datatype AddReportUiState = AddReportUiState(
    itemType: ItemType,
    itemName: string,
    category: Category,
    location: string,
    description: string,
    whatsappNumber: string,
    imageUri: Option<string>,
    isLoading: bool,
    errorMessage: Option<string>,
    isSuccess: bool)

  /** `AddReportUiState()`. */
  const DefaultUiState := AddReportUiState(LOST, "", OTHER, "", "", "", None, false, None, false)

  /** The longest description `setDescription` keeps. */
  const MaxDescription := 500

  const NameRequired := "Nama barang wajib diisi"
  const LocationRequired := "Lokasi wajib diisi"
  const NumberRequired := "Nomor WhatsApp wajib diisi"
  const NumberFormatInvalid := "Format nomor WhatsApp tidak valid. Gunakan format: 08123456789 atau 628123456789"
  const FillAllFields := "Harap lengkapi semua field yang wajib"
  const SubmitFailed := "Gagal mengirim laporan"

  /** `validateForm`: a form that passes is stored with a valid number in the "62" form. */
  predicate ValidateForm(st: AddReportUiState)
    ensures ValidateForm(st) ==>
              StartsWith(FormatPhoneNumber(st.whatsappNumber), "62") &&
              IsValidIndonesianPhoneNumber(FormatPhoneNumber(st.whatsappNumber))
  {
    if && !IsBlank(st.itemName)
       && !IsBlank(st.location)
       && !IsBlank(DigitsOnly(st.whatsappNumber))
       && IsValidIndonesianPhoneNumber(st.whatsappNumber)
    then
      FormatKeepsValidity(st.whatsappNumber);
      true
    else false
  }

  /** A valid number has digits, so the "at least one digit" test adds nothing. */
  lemma ValidateFormCharacterised(st: AddReportUiState)
    ensures ValidateForm(st) <==>
              !IsBlank(st.itemName) && !IsBlank(st.location) &&
              IsValidIndonesianPhoneNumber(st.whatsappNumber)
  {
    var clean := DigitsOnly(st.whatsappNumber);
    if IsValidIndonesianPhoneNumber(st.whatsappNumber) {
      assert IsDigit(clean[0]);
    }
  }

  /**
   * The message of an invalid submit: the first failing check in the order
   * name, location, missing number, number format. The catch-all message is
   * never chosen.
   */
  function SubmitErrorMessage(st: AddReportUiState): (r: string)
    requires !ValidateForm(st)
    ensures IsBlank(st.itemName) ==> r == NameRequired
    ensures !IsBlank(st.itemName) && IsBlank(st.location) ==> r == LocationRequired
    ensures !IsBlank(st.itemName) && !IsBlank(st.location) && IsBlank(DigitsOnly(st.whatsappNumber)) ==>
              r == NumberRequired
    ensures !IsBlank(st.itemName) && !IsBlank(st.location) && !IsBlank(DigitsOnly(st.whatsappNumber)) ==>
              r == NumberFormatInvalid && !IsValidIndonesianPhoneNumber(st.whatsappNumber)
    ensures r != FillAllFields
  {
    if IsBlank(st.itemName) then NameRequired
    else if IsBlank(st.location) then LocationRequired
    else if IsBlank(DigitsOnly(st.whatsappNumber)) then NumberRequired
    else if !IsValidIndonesianPhoneNumber(st.whatsappNumber) then NumberFormatInvalid
    else FillAllFields
  }

  /** The item `submitReport` hands to the repository, created at `now`. */
  function BuildItem(st: AddReportUiState, now: int): (r: LostFoundItem)
    ensures r == DefaultItem(now).(itemType := st.itemType, itemName := st.itemName,
                                   category := st.category, location := st.location,
                                   description := st.description,
                                   whatsappNumber := FormatPhoneNumber(st.whatsappNumber))
  {
    LostFoundItem("", "", st.itemType, st.itemName, st.category, st.location, st.description,
                  "", FormatPhoneNumber(st.whatsappNumber), false, now, "")
  }

  /** A report that passes validation is stored with a valid number in the "62" form. */
  lemma BuiltItemHasWhatsAppNumber(st: AddReportUiState, now: int)
    requires ValidateForm(st)
    ensures StartsWith(BuildItem(st, now).whatsappNumber, "62")
    ensures IsValidIndonesianPhoneNumber(BuildItem(st, now).whatsappNumber)
    ensures BuildItem(st, now).itemName == st.itemName && !IsBlank(BuildItem(st, now).itemName)
  {
    FormatKeepsValidity(st.whatsappNumber);
  }

  /** What the repository's `addItem` returned (or threw). */
  datatype AddOutcome = Added(docId: string) | AddFailed(message: Option<string>)

  class AddReportViewModel {
    var uiState: AddReportUiState

    /** The description is never longer than 500 UTF-16 code units. */
    predicate Valid()
      reads this
    {
      Utf16Length(uiState.description) <= MaxDescription
    }

    constructor ()
      ensures uiState == DefaultUiState && Valid()
    {
      uiState := DefaultUiState;
    }

    method SetItemType(t: ItemType)
      requires Valid()
      modifies this
      ensures uiState == old(uiState).(itemType := t) && Valid()
    {
      uiState := uiState.(itemType := t);
    }

    method SetItemName(name: string)
      requires Valid()
      modifies this
      ensures uiState == old(uiState).(itemName := name) && Valid()
    {
      uiState := uiState.(itemName := name);
    }

    method SetCategory(category: Category)
      requires Valid()
      modifies this
      ensures uiState == old(uiState).(category := category) && Valid()
    {
      uiState := uiState.(category := category);
    }

    method SetLocation(location: string)
      requires Valid()
      modifies this
      ensures uiState == old(uiState).(location := location) && Valid()
    {
      uiState := uiState.(location := location);
    }

    /** Only the first 500 UTF-16 code units are kept. */
    method SetDescription(description: string)
      modifies this
      ensures uiState == old(uiState).(description := Utf16Take(description, MaxDescription))
      ensures StartsWith(description, uiState.description)
      ensures Utf16Length(description) <= MaxDescription ==> uiState.description == description
      ensures Valid()
    {
      uiState := uiState.(description := Utf16Take(description, MaxDescription));
    }

    /** The number is stored as typed; it is formatted only on submit. */
    method SetWhatsAppNumber(number: string)
      requires Valid()
      modifies this
      ensures uiState == old(uiState).(whatsappNumber := number) && Valid()
    {
      uiState := uiState.(whatsappNumber := number);
    }

    method SetImageUri(uri: Option<string>)
      requires Valid()
      modifies this
      ensures uiState == old(uiState).(imageUri := uri) && Valid()
    {
      uiState := uiState.(imageUri := uri);
    }

    /**
     * `submitReport(onSuccess)`: an invalid form only gets its error message;
     * a valid one sends `item` (with `uiState.imageUri`) to the repository,
     * whose answer is `outcome`. `onSuccessCalled` says whether the callback ran.
     */
    method SubmitReport(now: int, outcome: AddOutcome) returns (item: Option<LostFoundItem>, onSuccessCalled: bool)
      requires Valid()
      modifies this
      ensures Valid()
      ensures item.Some? <==> ValidateForm(old(uiState))
      ensures !ValidateForm(old(uiState)) ==>
                uiState == old(uiState).(errorMessage := Some(SubmitErrorMessage(old(uiState)))) &&
                !onSuccessCalled
      ensures ValidateForm(old(uiState)) ==> item == Some(BuildItem(old(uiState), now))
      ensures ValidateForm(old(uiState)) && outcome.Added? ==>
                uiState == old(uiState).(isLoading := false, errorMessage := None, isSuccess := true) &&
                onSuccessCalled
      ensures ValidateForm(old(uiState)) && outcome.AddFailed? ==>
                uiState == old(uiState).(isLoading := false,
                                         errorMessage := Some(outcome.message.GetOr(SubmitFailed))) &&
                !onSuccessCalled
    {
      if !ValidateForm(uiState) {
        uiState := uiState.(errorMessage := Some(SubmitErrorMessage(uiState)));
        return None, false;
      }
      uiState := uiState.(isLoading := true, errorMessage := None);
      item := Some(BuildItem(uiState, now));
      match outcome
      case Added(_) =>
        uiState := uiState.(isLoading := false, isSuccess := true);
        onSuccessCalled := true;
      case AddFailed(message) =>
        uiState := uiState.(isLoading := false, errorMessage := Some(message.GetOr(SubmitFailed)));
        onSuccessCalled := false;
    }

    method ResetState()
      modifies this
      ensures uiState == DefaultUiState && Valid()
    {
      uiState := DefaultUiState;
    }
  }

  /**
   * A form with a name, a location and "0812-3456-7890" is accepted and
   * submits the number as "6281234567890".
   */
  method SubmitScenario(now: int, number: string)
    requires number == "0812-3456-7890"
  {
    var vm := new AddReportViewModel();
    vm.SetItemName("Dompet");
    vm.SetLocation("Perpustakaan");
    vm.SetWhatsAppNumber(number);
    FormatDashedExample(number);
    FormatKeepsValidity(number);
    ValidateFormCharacterised(vm.uiState);
    assert !IsWhitespace(vm.uiState.itemName[0]) && !IsWhitespace(vm.uiState.location[0]);
    var item, called := vm.SubmitReport(now, Added("doc1"));
    assert item.Some? && item.value.whatsappNumber == "6281234567890";
    assert called && vm.uiState.isSuccess;
  }

  /** A blank name is reported first, whatever else is wrong, and nothing is sent. */
  method BlankNameScenario(now: int)
  {
    var vm := new AddReportViewModel();
    vm.SetItemName("  ");
    var item, called := vm.SubmitReport(now, Added("doc2"));
    assert item == None && !called && vm.uiState.errorMessage == Some(NameRequired);
  }
}
