/**
 * The home page (src/pages/Home.tsx): the manual-entry form, the insert it
 * builds, when the form resets, and the photo-upload handler, which only
 * shows a notice.
 */
module Home {
  import opened Wrappers
  import opened Types
  import opened Toasts

  /** The form state `manualEntry`; every field is the text of its input. */
  datatype ManualEntry = ManualEntry(
    name: string,
    description: string,
    category: string,
    estimatedValue: string,
    roomLocation: string,
    condition: string)

  /** The form on first render and after every successful insert. */
  const BlankEntry := ManualEntry("", "", "", "", "", "good")

  /**
   * The value sent for `estimated_value`: null for an empty field, otherwise
   * the parsed number. `parse` stands for `parseFloat`; its `None` is a
   * non-finite result, which the JSON body of the insert carries as null.
   */
  function EstimatedValue(text: string, parse: string -> Option<real>): Option<real> {
    if text == "" then None else parse(text)
  }

  /** The insert object of `handleManualSubmit`. */
  function ManualInsert(userId: string, entry: ManualEntry, parse: string -> Option<real>): ItemInsert {
    ItemInsert(
      brand := Omitted,
      category := Given(Some(entry.category)),
      color := Omitted,
      condition := Given(Some(entry.condition)),
      createdAt := Omitted,
      description := Given(Some(entry.description)),
      estimatedValue := Given(EstimatedValue(entry.estimatedValue, parse)),
      id := Omitted,
      imageUrl := Omitted,
      model := Omitted,
      name := entry.name,
      purchaseDate := Omitted,
      purchasePrice := Omitted,
      roomLocation := Given(Some(entry.roomLocation)),
      serialNumber := Omitted,
      updatedAt := Omitted,
      userId := userId)
  }

  /**
   * The owner is the signed-in user; the text fields are copied as typed,
   * empty strings included; the value is null exactly for an empty field
   * (or a non-finite parse); no AI-only column is set.
   */
  lemma ManualInsertFields(userId: string, entry: ManualEntry, parse: string -> Option<real>)
    ensures var ins := ManualInsert(userId, entry, parse);
      && ins.userId == userId && ins.name == entry.name
      && ins.description == Given(Some(entry.description))
      && ins.category == Given(Some(entry.category))
      && ins.roomLocation == Given(Some(entry.roomLocation))
      && ins.condition == Given(Some(entry.condition))
      && (entry.estimatedValue == "" ==> ins.estimatedValue == Given(None))
      && (entry.estimatedValue != "" ==> ins.estimatedValue == Given(parse(entry.estimatedValue)))
      && ins.brand == Omitted && ins.model == Omitted && ins.color == Omitted && ins.imageUrl == Omitted
  {
  }

  const AddedToast := Toast(false, "Item Added", "Your inventory item has been added successfully.")
  const ComingSoonToast := Toast(false, "AI Analysis Coming Soon", "Image upload and AI analysis will be available soon!")

  class HomePage {
    var manualEntry: ManualEntry
    var loading: bool

    constructor ()
      ensures manualEntry == BlankEntry && !loading
    {
      manualEntry, loading := BlankEntry, false;
    }

    /**
     * `handleManualSubmit`. With no user nothing is inserted; otherwise one
     * insert is sent for the signed-in user. The form resets only after a
     * successful insert. `loadingWhileWaiting` is a snapshot of `loading`
     * taken just before the identity lookup and the insert are awaited;
     * `loading` is false when the handler returns.
     */
    method HandleManualSubmit(user: Option<AuthUser>, parse: string -> Option<real>,
                              insert: ItemInsert -> Option<string>)
      returns (sent: Option<ItemInsert>, toast: Toast, loadingWhileWaiting: bool)
      modifies this
      ensures loadingWhileWaiting && !loading
      ensures user.None? ==>
                sent.None? && manualEntry == old(manualEntry) && toast == ErrorToast(NotAuthenticatedMessage)
      ensures user.Some? ==> sent == Some(ManualInsert(user.value.id, old(manualEntry), parse))
      ensures user.Some? && insert(sent.value).Some? ==>
                manualEntry == old(manualEntry) && toast == ErrorToast(insert(sent.value).value)
      ensures user.Some? && insert(sent.value).None? ==>
                manualEntry == BlankEntry && toast == AddedToast
    {
      loading := true;
      loadingWhileWaiting := loading;
      sent := None;
      if user.None? {
        toast := ErrorToast(NotAuthenticatedMessage);
      } else {
        var row := ManualInsert(user.value.id, manualEntry, parse);
        sent := Some(row);
        var error := insert(row);
        if error.Some? {
          toast := ErrorToast(error.value);
        } else {
          toast := AddedToast;
          manualEntry := BlankEntry;
        }
      }
      loading := false;
    }

    /**
     * `handleFileUpload`: selecting no files returns at once; otherwise only a
     * notice is shown. Nothing is uploaded or inserted in either case.
     */
    method HandleFileUpload(files: Option<seq<string>>) returns (toast: Option<Toast>)
      modifies this`loading
      ensures files.None? || files.value == [] ==> toast.None? && loading == old(loading)
      ensures files.Some? && files.value != [] ==> toast == Some(ComingSoonToast) && !loading
    {
      if files.None? || files.value == [] {
        return None;
      }
      loading := true;
      toast := Some(ComingSoonToast);
      loading := false;
    }
  }
}
