/**
 * The profile page: editing the name and the about line, choosing and
 * removing the photo, and what the page shows meanwhile.
 */
module Profile {
  import opened Js

  /** The profile update sent to the server: exactly one field. */
  datatype ProfileUpdate = FullName(fullName: string) | Bio(bio: string) | ProfilePic(profilePic: string)

  const EmptyNameError: string := "Name cannot be empty"
  const UpdatedNotice: string := "Profile updated successfully"
  const UpdateFailedNotice: string := "Failed to update profile"
  const DefaultPicture: string := "/avatar.png"
  const DefaultAbout: string := "Hey there! I am using GupSup."

  /** The error shown when an update fails: the server's message, or a fixed one when it sent none. */
  function UpdateErrorMessage(serverMessage: Option<string>): (m: string)
    ensures Truthy(serverMessage) ==> m == serverMessage.value
    ensures !Truthy(serverMessage) ==> m == UpdateFailedNotice
    ensures |m| > 0
  {
    OrElse(serverMessage, UpdateFailedNotice)
  }

  /** The picture shown: the one just chosen, then the stored one, then the default picture. */
  function DisplayedImage(selectedImg: Option<string>, profilePic: Option<string>): (src: string)
    ensures Truthy(selectedImg) ==> src == selectedImg.value
    ensures !Truthy(selectedImg) && Truthy(profilePic) ==> src == profilePic.value
    ensures !Truthy(selectedImg) && !Truthy(profilePic) ==> src == DefaultPicture
  {
    Or(selectedImg, Or(profilePic, Some(DefaultPicture))).value
  }

  /** The remove button is offered only when there is a chosen or a stored picture. */
  predicate RemoveVisible(selectedImg: Option<string>, profilePic: Option<string>) {
    Truthy(selectedImg) || Truthy(profilePic)
  }

  /** Without a remove button the default picture shows; with one, a real picture shows. */
  lemma RemoveVisibleIffPicture(selectedImg: Option<string>, profilePic: Option<string>)
    ensures !RemoveVisible(selectedImg, profilePic) ==> DisplayedImage(selectedImg, profilePic) == DefaultPicture
    ensures RemoveVisible(selectedImg, profilePic) ==>
              DisplayedImage(selectedImg, profilePic) == (if Truthy(selectedImg) then selectedImg.value else profilePic.value)
  {
  }

  /** The about line shown when not editing: the stored bio, or the default line. */
  function AboutText(bio: Option<string>): (t: string)
    ensures Truthy(bio) ==> t == bio.value
    ensures !Truthy(bio) ==> t == DefaultAbout
  {
    OrElse(bio, DefaultAbout)
  }

  class ProfileEditor {
    var isEditingName: bool
    var isEditingAbout: bool
    var name: string
    var about: string
    var selectedImg: Option<string>

    /** The fields start from the signed-in user's name and bio, empty when missing. */
    constructor (fullName: Option<string>, bio: Option<string>)
      ensures name == OrElse(fullName, "") && about == OrElse(bio, "")
      ensures !isEditingName && !isEditingAbout && selectedImg.None?
    {
      isEditingName, isEditingAbout := false, false;
      name, about := OrElse(fullName, ""), OrElse(bio, "");
      selectedImg := None;
    }

    method EditName()
      modifies this
      ensures isEditingName
      ensures isEditingAbout == old(isEditingAbout) && name == old(name) && about == old(about) && selectedImg == old(selectedImg)
    {
      isEditingName := true;
    }

    method EditAbout()
      modifies this
      ensures isEditingAbout
      ensures isEditingName == old(isEditingName) && name == old(name) && about == old(about) && selectedImg == old(selectedImg)
    {
      isEditingAbout := true;
    }

    method TypeName(value: string)
      modifies this
      ensures name == value
      ensures isEditingName == old(isEditingName) && isEditingAbout == old(isEditingAbout) && about == old(about) && selectedImg == old(selectedImg)
    {
      name := value;
    }

    method TypeAbout(value: string)
      modifies this
      ensures about == value
      ensures isEditingName == old(isEditingName) && isEditingAbout == old(isEditingAbout) && name == old(name) && selectedImg == old(selectedImg)
    {
      about := value;
    }

    /**
     * Saving the name: a name that is only whitespace is refused with an error and
     * nothing is sent; any other is sent exactly as typed, spaces included.
     */
    method NameSave() returns (request: Option<ProfileUpdate>, error: Option<string>)
      ensures request.None? <==> (forall i :: 0 <= i < |name| ==> IsSpace(name[i]))
      ensures request.None? ==> error == Some(EmptyNameError)
      ensures request.Some? ==> request.value == FullName(name) && error.None?
    {
      TrimEmptyIffAllSpace(name);
      if |Trim(name)| == 0 {
        return None, Some(EmptyNameError);
      }
      return Some(FullName(name)), None;
    }

    /** Saving the about line sends it as the bio, unchecked; an empty one is allowed. */
    method AboutSave() returns (request: ProfileUpdate)
      ensures request == Bio(about)
    {
      request := Bio(about);
    }

    /** A confirmed removal forgets the chosen picture and sends an empty picture; otherwise nothing happens. */
    method RemovePhoto(confirmed: bool) returns (request: Option<ProfileUpdate>)
      modifies this
      ensures confirmed ==> request == Some(ProfilePic("")) && selectedImg.None?
      ensures !confirmed ==> request.None? && selectedImg == old(selectedImg)
      ensures isEditingName == old(isEditingName) && isEditingAbout == old(isEditingAbout) && name == old(name) && about == old(about)
    {
      request := None;
      if confirmed {
        selectedImg := None;
        request := Some(ProfilePic(""));
      }
    }

    /**
     * A chosen file, once read as a data URL, becomes the shown picture and is
     * uploaded at once; choosing no file does nothing.
     */
    method ImageChosen(dataUrl: Option<string>) returns (request: Option<ProfileUpdate>)
      modifies this
      ensures dataUrl.Some? ==> selectedImg == dataUrl && request == Some(ProfilePic(dataUrl.value))
      ensures dataUrl.None? ==> request.None? && selectedImg == old(selectedImg)
      ensures isEditingName == old(isEditingName) && isEditingAbout == old(isEditingAbout) && name == old(name) && about == old(about)
    {
      request := None;
      if dataUrl.Some? {
        selectedImg := dataUrl;
        request := Some(ProfilePic(dataUrl.value));
      }
    }

    /** A successful update closes both editors. */
    method UpdateSucceeded() returns (notice: string)
      modifies this
      ensures notice == UpdatedNotice && !isEditingName && !isEditingAbout
      ensures name == old(name) && about == old(about) && selectedImg == old(selectedImg)
    {
      notice := UpdatedNotice;
      isEditingName, isEditingAbout := false, false;
    }

    /** A failed update leaves the editors open and reports the server's message or the fixed one. */
    method UpdateFailed(serverMessage: Option<string>) returns (notice: string)
      ensures notice == UpdateErrorMessage(serverMessage)
    {
      notice := UpdateErrorMessage(serverMessage);
    }
  }
}
