/** The listing form (src/app/sell/page.tsx): its initial values and option
    lists, field edits, and the image list's add and remove operations. */
module Sell {
  import opened Wrappers
  import opened DroneTypes

  /** An uploaded file, reduced to what the form keeps of it. */
  datatype ImageFile = ImageFile(name: string, size: nat)

  datatype SellForm = SellForm(
    title: string,
    brand: string,
    model: string,
    price: string,
    flightDistance: string,
    condition: string,
    level: string,
    location: string,
    description: string,
    contactMethod: string,
    contactInfo: string,
    images: seq<ImageFile>)

  datatype SellField =
    | Title | Brand | Model | Price | FlightDistance | Condition
    | LevelField | Location | Description | ContactMethod | ContactInfo

  function FieldOf(f: SellForm, field: SellField): string {
    match field
    case Title => f.title
    case Brand => f.brand
    case Model => f.model
    case Price => f.price
    case FlightDistance => f.flightDistance
    case Condition => f.condition
    case LevelField => f.level
    case Location => f.location
    case Description => f.description
    case ContactMethod => f.contactMethod
    case ContactInfo => f.contactInfo
  }

  /** The values of the condition select. */
  function ConditionOptions(): seq<string> {
    ["new", "like-new", "good", "fair"]
  }

  /** The values of the contact-method select. */
  function ContactMethodOptions(): seq<string> {
    ["kakao", "phone", "email"]
  }

  /** What choosing an option of the level select stores. The select maps over
      the level names, which are plain strings, so `level.value`,
      `level.label` and `level.description` are all `undefined`: an option
      then has no value attribute and its value is its text, " - " with the
      surrounding spaces stripped. */
  function LevelOptionValue(level: Level): string {
    "-"
  }

  /** Choosing any level in the select leaves a form level that names no level. */
  lemma ChoosingLevelLosesLevel(f: SellForm, level: Level)
    ensures ParseLevel(FieldOf(HandleInputChange(f, LevelField, LevelOptionValue(level)), LevelField)).None?
  {
  }

  /** The evidently intended option value: the level's own name. */
  function FixedLevelOptionValue(level: Level): string {
    LevelName(level)
  }

  /** With the intended options, choosing a level stores a name that parses
      back to that level, and different options store different values. */
  lemma FixedLevelOptionRoundTrip(f: SellForm, level: Level, other: Level)
    ensures ParseLevel(FieldOf(HandleInputChange(f, LevelField, FixedLevelOptionValue(level)), LevelField)) == Some(level)
    ensures level != other ==> FixedLevelOptionValue(level) != FixedLevelOptionValue(other)
  {
    LevelNameRoundTrip(level, other);
  }

  /** The form's starting state: the condition and contact selects start on one
      of their own options, the level on the name of a level (which matches
      none of the level select's option values), every free-text field is
      empty and no image is attached. */
  function InitialSellForm(): (r: SellForm)
    ensures FieldOf(r, Condition) == "good" && FieldOf(r, Condition) in ConditionOptions()
    ensures FieldOf(r, ContactMethod) == "kakao" && FieldOf(r, ContactMethod) in ContactMethodOptions()
    ensures ParseLevel(FieldOf(r, LevelField)) == Some(Intermediate)
    ensures forall level :: FieldOf(r, LevelField) != LevelOptionValue(level)
    ensures FieldOf(r, LevelField) == FixedLevelOptionValue(Intermediate)
    ensures forall field :: field !in {Condition, ContactMethod, LevelField} ==> FieldOf(r, field) == ""
    ensures r.images == []
  {
    SellForm("", "", "", "", "", "good", "intermediate", "", "", "kakao", "", [])
  }

  /** `handleInputChange`: the named field takes the value; the other fields
      and the images are untouched. */
  function HandleInputChange(f: SellForm, field: SellField, value: string): (r: SellForm)
    ensures FieldOf(r, field) == value
    ensures forall other :: other != field ==> FieldOf(r, other) == FieldOf(f, other)
    ensures r.images == f.images
  {
    match field
    case Title => f.(title := value)
    case Brand => f.(brand := value)
    case Model => f.(model := value)
    case Price => f.(price := value)
    case FlightDistance => f.(flightDistance := value)
    case Condition => f.(condition := value)
    case LevelField => f.(level := value)
    case Location => f.(location := value)
    case Description => f.(description := value)
    case ContactMethod => f.(contactMethod := value)
    case ContactInfo => f.(contactInfo := value)
  }

  /** `handleImageChange`: with no file list nothing happens; otherwise the
      chosen files follow the existing images, both in their own order. */
  function HandleImageChange(f: SellForm, files: Option<seq<ImageFile>>): (r: SellForm)
    ensures files.None? ==> r == f
    ensures files.Some? ==> |r.images| == |f.images| + |files.value|
    ensures files.Some? ==> r.images[..|f.images|] == f.images && r.images[|f.images|..] == files.value
    ensures forall field :: FieldOf(r, field) == FieldOf(f, field)
  {
    match files
    case None => f
    case Some(fs) => f.(images := f.images + fs)
  }

  /** `images.filter((_, i) => i !== index)`, one position at a time. */
  function DropAt<T>(s: seq<T>, index: int): (r: seq<T>)
    ensures |r| == if 0 <= index < |s| then |s| - 1 else |s|
    decreases |s|
  {
    if |s| == 0 then []
    else (if index == 0 then [] else [s[0]]) + DropAt(s[1..], index - 1)
  }

  /** Removing a position in range closes the gap; any other index leaves the list as it is. */
  lemma DropAtRemovesOne<T>(s: seq<T>, index: int)
    ensures 0 <= index < |s| ==> DropAt(s, index) == s[..index] + s[index + 1..]
    ensures !(0 <= index < |s|) ==> DropAt(s, index) == s
  {
    if 0 <= index < |s| {
      DropAtInRange(s, index);
    } else {
      DropAtOutOfRange(s, index);
    }
  }

  lemma {:induction false} DropAtInRange<T>(s: seq<T>, index: int)
    requires 0 <= index < |s|
    ensures DropAt(s, index) == s[..index] + s[index + 1..]
    decreases |s|
  {
    if index == 0 {
      assert DropAt(s, index) == [] + DropAt(s[1..], -1);
      DropAtOutOfRange(s[1..], -1);
      assert s[..0] + s[1..] == s[1..];
    } else {
      var front, back := s[1..][..index - 1], s[1..][index..];
      assert DropAt(s, index) == [s[0]] + DropAt(s[1..], index - 1);
      DropAtInRange(s[1..], index - 1);
      assert [s[0]] + (front + back) == ([s[0]] + front) + back;
      assert [s[0]] + front == s[..index];
      assert back == s[index + 1..];
    }
  }

  lemma {:induction false} DropAtOutOfRange<T>(s: seq<T>, index: int)
    requires !(0 <= index < |s|)
    ensures DropAt(s, index) == s
    decreases |s|
  {
    if |s| > 0 {
      DropAtOutOfRange(s[1..], index - 1);
      assert [s[0]] + s[1..] == s;
    }
  }

  /** `removeImage(index)`: only the image list changes. */
  function RemoveImage(f: SellForm, index: int): (r: SellForm)
    ensures 0 <= index < |f.images| ==> r.images == f.images[..index] + f.images[index + 1..]
    ensures !(0 <= index < |f.images|) ==> r.images == f.images
    ensures forall field :: FieldOf(r, field) == FieldOf(f, field)
  {
    DropAtRemovesOne(f.images, index);
    f.(images := DropAt(f.images, index))
  }

  /** Attaching one file and then removing the last image gives back the form. */
  lemma AddThenRemoveLast(f: SellForm, file: ImageFile)
    ensures RemoveImage(HandleImageChange(f, Some([file])), |f.images|) == f
  {
    var g := HandleImageChange(f, Some([file]));
    assert g.images[..|f.images|] == f.images;
  }
}
