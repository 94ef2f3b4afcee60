/** The business-onboarding screen
    (src/views/onboarding/BusinessOnboarding/BusinessOnboarding.tsx): the
    checks a chosen logo file must pass, and the form state that the logo
    choice and the submission update. */
module BusinessOnboarding {
  import opened AuthTypes
  import JsArray

  const MaxUpload: nat := 1
  const AllowedFileTypes: seq<string> := ["image/jpeg", "image/png"]
  const MaxFileSize: nat := 500000

  const SelectFileMessage := "Please select a file"
  /** Built from `MaxUpload`, a single digit, as the source interpolates it. */
  const UploadLimitMessage: string :=
    "You can only upload " + [('0' as int + MaxUpload) as char] + " file(s)"
  const FileTypeMessage := "Please upload a .jpeg or .png file!"
  const FileSizeMessage := "Upload image cannot more then 500kb!"
  const MissingLogoMessage := "Please upload a business logo"

  /** A file the browser offers: its name, MIME type and size in bytes. */
  datatype File = File(name: string, fileType: string, size: nat)

  /** What `beforeUpload` returns: `true`, or the message of the failed check. */
  datatype UploadVerdict = Accepted | Refused(message: string)

  /** The selection is present and holds at least one file. */
  predicate HasSelection(files: Option<seq<File>>) {
    files.Some? && |files.value| > 0
  }

  /** One check of a chain: whether it holds, and the message if it does not. */
  datatype Guard = Guard(holds: bool, message: string)

  /** Reference meaning of a chain of early returns: the message of the first
      check that fails, or acceptance when every check holds. */
  function FirstFailure(guards: seq<Guard>): (v: UploadVerdict)
    ensures v == Accepted <==> forall i :: 0 <= i < |guards| ==> guards[i].holds
    ensures v.Refused? ==>
              exists i :: 0 <= i < |guards| && !guards[i].holds && v.message == guards[i].message
                          && forall j :: 0 <= j < i ==> guards[j].holds
  {
    if guards == [] then Accepted
    else if !guards[0].holds then Refused(guards[0].message)
    else
      var v := FirstFailure(guards[1..]);
      assert forall i :: 0 < i < |guards| ==> guards[i] == guards[1..][i - 1];
      v
  }

  /** The upload checks written as a table, in the order they run. The
      type and size checks concern the first selected file, so they exist
      only when there is one. */
  function UploadGuards(files: Option<seq<File>>, fileList: seq<File>): seq<Guard> {
    if !HasSelection(files) then [Guard(false, SelectFileMessage)]
    else
      var file := files.value[0];
      [ Guard(true, SelectFileMessage),
        Guard(|fileList| < 1, UploadLimitMessage),
        Guard(file.fileType == "image/jpeg" || file.fileType == "image/png", FileTypeMessage),
        Guard(file.size < 500000, FileSizeMessage) ]
  }

  /** `beforeUpload`: checks the new selection `files` against the files
      already chosen (`fileList`). */
  function BeforeUpload(files: Option<seq<File>>, fileList: seq<File>): (v: UploadVerdict)
    ensures !HasSelection(files) ==> v == Refused(SelectFileMessage)
    ensures HasSelection(files) && |fileList| >= 1 ==> v == Refused(UploadLimitMessage)
    ensures HasSelection(files) && files.value[0].size >= 500000 ==> v.Refused?
    ensures v == Accepted <==>
              HasSelection(files) && fileList == []
              && files.value[0].fileType in {"image/jpeg", "image/png"}
              && files.value[0].size < 500000
  {
    if !HasSelection(files) then Refused(SelectFileMessage)
    else
      var file := files.value[0];
      if |fileList| >= MaxUpload then Refused(UploadLimitMessage)
      else if !JsArray.Includes(AllowedFileTypes, file.fileType) then Refused(FileTypeMessage)
      else if file.size >= MaxFileSize then Refused(FileSizeMessage)
      else Accepted
  }

  /** The checks run in table order and only the first failure is reported. */
  lemma BeforeUploadFollowsGuards(files: Option<seq<File>>, fileList: seq<File>)
    ensures BeforeUpload(files, fileList) == FirstFailure(UploadGuards(files, fileList))
  {
    var guards := UploadGuards(files, fileList);
    if HasSelection(files) {
      assert guards[1..][1..][1..] == [guards[3]];
      assert guards[1..][1..] == [guards[2], guards[3]];
    }
  }

  /** The values the form collects (already validated by its schema). */
  datatype FormValues = FormValues(name: string, email: string, phone: string, address: string)

  /** How the awaited save call ends: it resolves, possibly to nothing, or it rejects. */
  datatype SaveOutcome = Returned(result: Option<AuthResponse>) | Threw

  /** The component state of the onboarding form. */
  class OnboardingForm {
    var isSubmitting: bool
    var message: string
    var logoBase64: string
    var logoFileName: string

    constructor ()
      ensures !isSubmitting && message == "" && logoBase64 == "" && logoFileName == ""
    {
      isSubmitting, message := false, "";
      logoBase64, logoFileName := "", "";
    }

    /** `handleFileSelect`: remembers the encoded logo and its file name. */
    method HandleFileSelect(base64: string, fileName: string)
      modifies this
      ensures logoBase64 == base64 && logoFileName == fileName
      ensures isSubmitting == old(isSubmitting) && message == old(message)
    {
      logoBase64 := base64;
      logoFileName := fileName;
    }

    /** A logo choice: `beforeUpload` wired to `handleFileSelect`. `encoded`
        stands for the data URL the file reader produces for the first file. */
    method ChooseLogo(files: Option<seq<File>>, fileList: seq<File>, encoded: string)
      returns (v: UploadVerdict)
      modifies this
      ensures v == BeforeUpload(files, fileList)
      ensures v == Accepted ==> logoBase64 == encoded && logoFileName == files.value[0].name
      ensures v.Refused? ==> logoBase64 == old(logoBase64) && logoFileName == old(logoFileName)
      ensures isSubmitting == old(isSubmitting) && message == old(message)
    {
      v := BeforeUpload(files, fileList);
      if v == Accepted {
        HandleFileSelect(encoded, files.value[0].name);
      }
    }

    /** `onSubmit`: refuses without a logo; otherwise calls `save` with the
        form values and the stored logo, and shows a 'failed' result's message.
        `sent` is the payload `save` was called with, if it was called;
        `threw` says that the call rejected and the rejection propagates. */
    method OnSubmit(values: FormValues, save: BusinessDetails -> SaveOutcome)
      returns (sent: Option<BusinessDetails>, threw: bool)
      modifies this
      ensures logoBase64 == old(logoBase64) && logoFileName == old(logoFileName)
      ensures old(logoBase64) == "" || old(logoFileName) == "" ==>
                sent == None && !threw
                && message == MissingLogoMessage && isSubmitting == old(isSubmitting)
      ensures old(logoBase64) != "" && old(logoFileName) != "" ==>
                sent == Some(BusinessDetails(values.name, values.email, values.phone,
                                             values.address, old(logoBase64), old(logoFileName)))
                && threw == save(sent.value).Threw?
      ensures threw ==> isSubmitting && message == old(message)
      ensures sent.Some? && !threw ==>
                var result := save(sent.value).result;
                !isSubmitting
                && message == if result.Some? && result.value.status == "failed"
                              then result.value.message else old(message)
    {
      if logoBase64 == "" || logoFileName == "" {
        message := MissingLogoMessage;
        return None, false;
      }
      isSubmitting := true;
      var details := BusinessDetails(values.name, values.email, values.phone,
                                     values.address, logoBase64, logoFileName);
      sent := Some(details);
      var outcome := save(details);
      if outcome.Threw? {
        return sent, true;
      }
      var result := outcome.result;
      if result.Some? && result.value.status == "failed" {
        message := result.value.message;
      }
      isSubmitting := false;
      threw := false;
    }
  }
}
