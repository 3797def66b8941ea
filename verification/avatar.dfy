/**
 * The avatar: a picture when the user has one and it loaded, otherwise the
 * initial on a colour picked by a 32-bit string hash of the user's key.
 */
module Avatar {
  import opened Js

  /** The user fields the avatar reads; every one may be missing. */
  datatype AvatarUser = AvatarUser(
    underscoreId: Option<string>,  // `_id`
    id: Option<string>,
    fullName: Option<string>,
    name: Option<string>,
    profilePic: Option<string>,
    image: Option<string>
  )

  // ---------------------------------------------------------------------------
  // Sizes

  const SizeClasses: map<string, string> := map[
    "small" := "w-9 h-9 md:w-10 md:h-10 text-sm",
    "medium" := "w-10 h-10 text-base",
    "large" := "w-12 h-12 text-lg",
    "xl" := "w-16 h-16 text-xl",
    "2xl" := "w-32 h-32 text-4xl"]

  /** The container classes: those of the named size, or medium's for an unknown size. */
  function ContainerSize(size: string): (c: string)
    ensures size in SizeClasses ==> c == SizeClasses[size]
    ensures size !in SizeClasses ==> c == SizeClasses["medium"]
  {
    if size in SizeClasses then SizeClasses[size] else SizeClasses["medium"]
  }

  // ---------------------------------------------------------------------------
  // Initials

  /** "?" for a missing or empty name, otherwise the first character upper-cased. */
  function Initials(name: Option<string>): (r: string)
    ensures !Truthy(name) ==> r == "?"
    ensures Truthy(name) ==> r == ToUpper(name.value[..1])
  {
    if !Truthy(name) then "?" else ToUpper(name.value[..1])
  }

  // ---------------------------------------------------------------------------
  // Colour

  const Palette: seq<string> := [
    "bg-red-500", "bg-orange-500", "bg-amber-500",
    "bg-green-500", "bg-emerald-500", "bg-teal-500",
    "bg-cyan-500", "bg-sky-500", "bg-blue-500",
    "bg-indigo-500", "bg-violet-500", "bg-purple-500",
    "bg-fuchsia-500", "bg-pink-500", "bg-rose-500"]

  /** One step of the hash: `hash = code + ((hash << 5) - hash)`. */
  function HashStep(hash: int, code: int): int {
    code + (ShiftLeft(hash, 5) - hash)
  }

  /** The hash of a sequence of code units: a left fold of HashStep from 0. */
  function HashOf(units: seq<int>): int {
    if units == [] then 0 else HashStep(HashOf(units[..|units| - 1]), units[|units| - 1])
  }

  /** The bound on one step's growth: a code unit plus the largest 32-bit magnitude. */
  const StepBound: int := 0x1_0000 + TwoTo31

  /**
   * The hash grows by less than 2^31 + 2^16 per code unit, so for keys shorter than
   * about four million code units it stays below 2^53 and JavaScript's numbers compute it exactly.
   */
  lemma {:induction false} HashBounded(units: seq<int>)
    requires forall k :: 0 <= k < |units| ==> 0 <= units[k] < 0x1_0000
    ensures -(|units| * StepBound) <= HashOf(units) <= |units| * StepBound
  {
    if units != [] {
      var init := units[..|units| - 1];
      HashBounded(init);
      assert |units| * StepBound == |init| * StepBound + StepBound;
    }
  }

  /** The palette index: `Math.abs(hash % 15)`, or 0 for a missing or empty key. */
  function ColorIndex(key: Option<string>): (i: nat)
    ensures i < |Palette|
    ensures !Truthy(key) ==> i == 0
  {
    if !Truthy(key) then 0 else Abs(Rem(HashOf(Utf16(key.value)), |Palette|))
  }

  /** The colour class for a key, computed by the loop over the key's code units. */
  method GetColor(key: Option<string>) returns (color: string)
    ensures color == Palette[ColorIndex(key)]
    ensures !Truthy(key) ==> color == "bg-red-500"
  {
    if !Truthy(key) {
      return Palette[0];
    }
    var units := Utf16(key.value);
    var hash := 0;
    for i := 0 to |units|
      invariant hash == HashOf(units[..i])
    {
      assert units[..i + 1][..i] == units[..i];
      hash := units[i] + (ShiftLeft(hash, 5) - hash);
    }
    assert units[..|units|] == units;
    var index := Abs(Rem(hash, |Palette|));
    color := Palette[index];
  }

  // ---------------------------------------------------------------------------
  // What the avatar draws

  /** The key the colour is taken from: `_id`, then `id`, then `fullName`, then `name`. */
  function ColorKey(u: AvatarUser): (k: Option<string>)
    ensures Truthy(u.underscoreId) ==> k == u.underscoreId
    ensures !Truthy(u.underscoreId) && Truthy(u.id) ==> k == u.id
    ensures !Truthy(u.underscoreId) && !Truthy(u.id) && Truthy(u.fullName) ==> k == u.fullName
    ensures !Truthy(u.underscoreId) && !Truthy(u.id) && !Truthy(u.fullName) ==> k == u.name
  {
    Or(u.underscoreId, Or(u.id, Or(u.fullName, u.name)))
  }

  /** The name shown: `fullName`, then `name`. */
  function DisplayName(u: AvatarUser): Option<string> {
    Or(u.fullName, u.name)
  }

  datatype AvatarView =
    | Picture(classes: string, src: string, alt: string)
    | Initial(classes: string, color: string, title: string, letter: string)

  /** A missing user: `user?.field` is undefined for every field. */
  const NoUser: AvatarUser := AvatarUser(None, None, None, None, None, None)

  /**
   * The picture is drawn exactly when `profilePic` or `image` is present and no load
   * error happened, `profilePic` first; otherwise the initial on the key's colour.
   */
  function Render(u: AvatarUser, size: string, imgError: bool): (v: AvatarView)
    ensures v.Picture? <==> (Truthy(u.profilePic) || Truthy(u.image)) && !imgError
    ensures v.Picture? ==> v.src == (if Truthy(u.profilePic) then u.profilePic.value else u.image.value)
    ensures v.Picture? ==> v.alt == OrElse(DisplayName(u), "User")
    ensures v.Initial? ==> v.color == Palette[ColorIndex(ColorKey(u))]
    ensures v.Initial? ==> v.letter == Initials(DisplayName(u)) && v.title == OrElse(DisplayName(u), "User")
    ensures v.classes == ContainerSize(size)
  {
    if (Truthy(u.profilePic) || Truthy(u.image)) && !imgError then
      Picture(ContainerSize(size), Or(u.profilePic, u.image).value, OrElse(DisplayName(u), "User"))
    else
      Initial(ContainerSize(size), Palette[ColorIndex(ColorKey(u))], OrElse(DisplayName(u), "User"), Initials(DisplayName(u)))
  }

  /** The avatar's one piece of state: whether the picture failed to load. */
  class AvatarState {
    var imgError: bool

    constructor ()
      ensures !imgError
    {
      imgError := false;
    }

    method OnImageError()
      modifies this
      ensures imgError
    {
      imgError := true;
    }

    function View(user: AvatarUser, size: string): AvatarView
      reads this
    {
      Render(user, size, imgError)
    }
  }

  /** Once the picture failed to load, the initial is drawn instead, whatever the user holds. */
  lemma ErrorShowsInitial(user: AvatarUser, size: string)
    ensures Render(user, size, true).Initial?
  {
  }
}
