/**
 * The add/edit player form (`components/PlayerForm.jsx`): a class component whose handlers
 * replace parts of `this.state`. `FormComponent` holds that state in fields; each handler is a
 * method proved to move the state as a pure function (`Changed`, `ImageChanged`, `Submitted`)
 * says, and the lemmas state what those functions promise.
 */
module PlayerForm {
  import opened Wrappers
  import opened Text
  import opened Players
  import PlayerRoutes

  /** The inputs `handleChange` serves, by their `name` attribute. */
  datatype Field = NameField | CountryField | RoleField | GenderField | BioField | TagsField
                 | MatchesField | RunsField | WicketsField | AverageField
  {
    function Key(): string {
      match this
      case NameField => "name"
      case CountryField => "country"
      case RoleField => "role"
      case GenderField => "gender"
      case BioField => "bio"
      case TagsField => "tags"
      case MatchesField => "matches"
      case RunsField => "runs"
      case WicketsField => "wickets"
      case AverageField => "average"
    }
  }

  const ImageKey := "image"

  /**
   * A statistic's state: the number the constructor puts there, or the text typed into the
   * number input afterwards.
   */
  datatype Input = Initial(value: real) | Typed(text: string)

  /** A file chosen in the image input; `objectUrl` is what `URL.createObjectURL` returns for it. */
  datatype File = File(mimeType: string, size: nat, objectUrl: string)

  /** `this.state`. */
  datatype Form = Form(
    name: string,
    country: string,
    role: string,
    gender: string,
    bio: string,
    tags: string,
    matches: Input,
    runs: Input,
    wickets: Input,
    average: Input,
    image: Option<File>,
    imagePreview: Option<string>,
    errors: map<string, string>)

  /** The value a field holds, as an `Input`. */
  function Get(f: Form, field: Field): Input {
    match field
    case NameField => Typed(f.name)
    case CountryField => Typed(f.country)
    case RoleField => Typed(f.role)
    case GenderField => Typed(f.gender)
    case BioField => Typed(f.bio)
    case TagsField => Typed(f.tags)
    case MatchesField => f.matches
    case RunsField => f.runs
    case WicketsField => f.wickets
    case AverageField => f.average
  }

  const ServerUrl := "http://localhost:5000"
  const DefaultRole := "All-rounder"

  /** `s || fallback` on a string. */
  function OrText(s: string, fallback: string): string {
    if s == [] then fallback else s
  }

  /** Lines 6-22: the state the form opens with, for a new player or for the player being edited. */
  function InitialForm(player: Option<Player>): (f: Form)
    ensures player.None? ==> f.role == DefaultRole && f.tags == [] && f.imagePreview.None?
    ensures player.Some? ==> f.role == OrText(player.value.role, DefaultRole)
    ensures player.Some? ==> f.tags == Join(player.value.tags, ", ")
    ensures player.Some? ==> f.matches == Initial(OrZero(player.value.stats.matches))
    ensures player.Some? ==> f.runs == Initial(OrZero(player.value.stats.runs))
    ensures player.Some? ==> f.wickets == Initial(OrZero(player.value.stats.wickets))
    ensures player.Some? ==> f.average == Initial(OrZero(player.value.stats.average))
    ensures player.None? ==> f.matches == f.runs == f.wickets == f.average == Initial(0.0)
    ensures f.image.None? && f.errors == map[]
  {
    match player
    case None =>
      Form([], [], DefaultRole, [], [], [], Initial(0.0), Initial(0.0), Initial(0.0), Initial(0.0), None, None, map[])
    case Some(p) =>
      Form(p.name, p.country, OrText(p.role, DefaultRole), p.gender, p.bio, Join(p.tags, ", "),
           Initial(OrZero(p.stats.matches)), Initial(OrZero(p.stats.runs)),
           Initial(OrZero(p.stats.wickets)), Initial(OrZero(p.stats.average)),
           None, if p.image == [] then None else Some(ServerUrl + p.image), map[])
  }

  /**
   * A stored player whose tags are all trimmed, non-empty and comma-free: the form shows them
   * joined with `", "`, and the server's tag parser turns that text back into the same tags.
   */
  lemma FormTagsRoundTrip(p: Player)
    requires forall i :: 0 <= i < |p.tags| ==> PlayerRoutes.CleanTag(p.tags[i])
    ensures PlayerRoutes.ParseTags(PlayerRoutes.Text(InitialForm(Some(p)).tags)) == p.tags
  {
    PlayerRoutes.TagsRoundTrip(p.tags);
  }

  /** `handleChange` on the state: the field takes the value and its error is cleared. */
  function Changed(f: Form, field: Field, value: string): Form {
    var errors := f.errors[field.Key() := []];
    match field
    case NameField => f.(name := value, errors := errors)
    case CountryField => f.(country := value, errors := errors)
    case RoleField => f.(role := value, errors := errors)
    case GenderField => f.(gender := value, errors := errors)
    case BioField => f.(bio := value, errors := errors)
    case TagsField => f.(tags := value, errors := errors)
    case MatchesField => f.(matches := Typed(value), errors := errors)
    case RunsField => f.(runs := Typed(value), errors := errors)
    case WicketsField => f.(wickets := Typed(value), errors := errors)
    case AverageField => f.(average := Typed(value), errors := errors)
  }

  /** A change sets the named field and clears the named error; every other field and error is as before. */
  lemma ChangeIsLocal(f: Form, field: Field, value: string)
    ensures Get(Changed(f, field, value), field) == Typed(value)
    ensures forall other :: other != field ==> Get(Changed(f, field, value), other) == Get(f, other)
    ensures Changed(f, field, value).errors == f.errors[field.Key() := []]
    ensures Changed(f, field, value).image == f.image
    ensures Changed(f, field, value).imagePreview == f.imagePreview
  {
  }

  const MaxImageBytes: nat := 5 * 1024 * 1024
  const NotImageError := "Please select an image file"
  const TooLargeError := "Image size should be less than 5MB"

  /** `file.type.match('image.*')`: the pattern has no anchors, so any type containing "image" matches. */
  predicate LooksLikeImage(mimeType: string) {
    Contains(mimeType, "image")
  }

  /** `handleImageChange` on the state: no file changes nothing; a rejected file only sets the image error. */
  function ImageChanged(f: Form, file: Option<File>): Form {
    match file
    case None => f
    case Some(x) =>
      if !LooksLikeImage(x.mimeType) then f.(errors := f.errors[ImageKey := NotImageError])
      else if x.size > MaxImageBytes then f.(errors := f.errors[ImageKey := TooLargeError])
      else f.(image := Some(x), imagePreview := Some(x.objectUrl), errors := f.errors[ImageKey := []])
  }

  /**
   * The image and its preview change exactly when a file with an image type of at most 5 MB is
   * chosen; a rejected file leaves every field as it was and records why under `errors.image`.
   */
  lemma ImageChangeCorrect(f: Form, x: File)
    ensures ImageChanged(f, Some(x)).image == Some(x) <==> (LooksLikeImage(x.mimeType) && x.size <= MaxImageBytes) || f.image == Some(x)
    ensures !LooksLikeImage(x.mimeType) ==> ImageChanged(f, Some(x)) == f.(errors := f.errors[ImageKey := NotImageError])
    ensures LooksLikeImage(x.mimeType) && x.size > MaxImageBytes ==> ImageChanged(f, Some(x)) == f.(errors := f.errors[ImageKey := TooLargeError])
    ensures LooksLikeImage(x.mimeType) && x.size <= MaxImageBytes ==>
              ImageChanged(f, Some(x)).imagePreview == Some(x.objectUrl) && ImageChanged(f, Some(x)).errors[ImageKey] == []
  {
  }

  /** A file of exactly 5 MB is accepted; one byte more is not. */
  lemma FiveMegabytesIsTheLimit(f: Form, t: string, url: string)
    requires LooksLikeImage(t)
    ensures ImageChanged(f, Some(File(t, 5242880, url))).image == Some(File(t, 5242880, url))
    ensures ImageChanged(f, Some(File(t, 5242881, url))).errors[ImageKey] == TooLargeError
  {
  }

  /** The form's size limit is the server's: a file the form accepts passes the upload size check. */
  lemma FormLimitIsServerLimit(f: Form, x: File)
    requires ImageChanged(f, Some(x)).image == Some(x) && f.image != Some(x)
    ensures x.size <= PlayerRoutes.MaxUploadBytes
  {
  }

  /**
   * The form's type check is looser than the server's: "image/webp" passes the form but the
   * server's filter refuses it whatever the file is called.
   */
  lemma FormTypeCheckIsLooser(originalname: string)
    ensures LooksLikeImage("image/webp")
    ensures !PlayerRoutes.FileFilter(originalname, "image/webp")
  {
    ContainsAt("image/webp", "image", 0);
    WebpNotAllowed();
  }

  lemma WebpNotAllowed()
    ensures !PlayerRoutes.AllowedType("image/webp")
  {
    WebpHasNoJpg();
    WebpHasNoPng();
    WebpHasNoGif();
  }

  lemma WebpHasNoJpg()
    ensures !Contains("image/webp", "jpeg") && !Contains("image/webp", "jpg")
  {
    var w := "image/webp";
    assert forall i :: 0 <= i < |w| ==> w[i] != 'j';
    NoFirstChar(w, "jpeg");
    NoFirstChar(w, "jpg");
  }

  lemma WebpHasNoPng()
    ensures !Contains("image/webp", "png")
  {
    NotContains("image/webp", "png");
  }

  lemma WebpHasNoGif()
    ensures !Contains("image/webp", "gif")
  {
    var w := "image/webp";
    assert w[3..6] == "ge/";
    NotContains(w, "gif");
  }

  const NameRequired := "Name is required"
  const CountryRequired := "Country is required"

  /** Lines 64-70: the errors of a submission. */
  function Validate(f: Form): (errors: map<string, string>)
    ensures "name" in errors <==> Trim(f.name) == []
    ensures "country" in errors <==> Trim(f.country) == []
    ensures errors.Keys <= {"name", "country"}
    ensures "name" in errors ==> errors["name"] == NameRequired
    ensures "country" in errors ==> errors["country"] == CountryRequired
  {
    var e := if Trim(f.name) == [] then map["name" := NameRequired] else map[];
    if Trim(f.country) == [] then e["country" := CountryRequired] else e
  }

  /** What `onSubmit` receives. */
  datatype Payload = Payload(
    name: string,
    country: string,
    role: string,
    gender: string,
    bio: string,
    tags: string,
    matches: real,
    runs: real,
    wickets: real,
    average: real,
    image: Option<File>)

  /** Truncation toward zero, as `parseInt` reads the decimal digits of a number. */
  function Truncate(v: real): (r: int)
    ensures v >= 0.0 ==> r as real <= v < r as real + 1.0
    ensures v < 0.0 ==> r as real - 1.0 < v <= r as real
  {
    if v >= 0.0 then v.Floor else -((-v).Floor)
  }

  /** `parseInt(x) || 0`. */
  function IntOrZero(x: Input, parseInt: string -> Number): real {
    match x
    case Initial(v) => Truncate(v) as real
    case Typed(t) => parseInt(t).Or(0.0)
  }

  /** `parseFloat(x) || 0`. */
  function FloatOrZero(x: Input, parseFloat: string -> Number): real {
    match x
    case Initial(v) => v
    case Typed(t) => parseFloat(t).Or(0.0)
  }

  /**
   * Lines 78-90: the payload, with the text fields as they stand and each statistic parsed or 0;
   * a number still as loaded is cut to its integer part by `parseInt` and kept by `parseFloat`.
   */
  function PayloadOf(f: Form, parseInt: string -> Number, parseFloat: string -> Number): (p: Payload)
    ensures p.name == f.name && p.country == f.country && p.tags == f.tags && p.image == f.image
    ensures p.role == f.role && p.gender == f.gender && p.bio == f.bio
    ensures f.matches.Typed? && parseInt(f.matches.text).NaN? ==> p.matches == 0.0
    ensures f.runs.Typed? && parseInt(f.runs.text).NaN? ==> p.runs == 0.0
    ensures f.wickets.Typed? && parseInt(f.wickets.text).NaN? ==> p.wickets == 0.0
    ensures f.average.Typed? && parseFloat(f.average.text).NaN? ==> p.average == 0.0
    ensures f.matches.Typed? && parseInt(f.matches.text).Num? ==> p.matches == parseInt(f.matches.text).value
    ensures f.runs.Typed? && parseInt(f.runs.text).Num? ==> p.runs == parseInt(f.runs.text).value
    ensures f.wickets.Typed? && parseInt(f.wickets.text).Num? ==> p.wickets == parseInt(f.wickets.text).value
    ensures f.average.Typed? && parseFloat(f.average.text).Num? ==> p.average == parseFloat(f.average.text).value
    ensures f.matches.Initial? ==> p.matches == Truncate(f.matches.value) as real
    ensures f.runs.Initial? ==> p.runs == Truncate(f.runs.value) as real
    ensures f.wickets.Initial? ==> p.wickets == Truncate(f.wickets.value) as real
    ensures f.average.Initial? ==> p.average == f.average.value
  {
    Payload(f.name, f.country, f.role, f.gender, f.bio, f.tags,
            IntOrZero(f.matches, parseInt), IntOrZero(f.runs, parseInt),
            IntOrZero(f.wickets, parseInt), FloatOrZero(f.average, parseFloat),
            f.image)
  }

  /**
   * `handleSubmit` on the state: with errors, the error map is replaced and nothing is sent;
   * without, the payload is sent and the state stays as it is.
   */
  function Submitted(f: Form, parseInt: string -> Number, parseFloat: string -> Number): (Form, Option<Payload>) {
    var errors := Validate(f);
    if |errors| > 0 then (f.(errors := errors), None)
    else (f, Some(PayloadOf(f, parseInt, parseFloat)))
  }

  /**
   * `onSubmit` is called exactly when neither name nor country is blank after trimming; a blank
   * one is reported under its own key and nothing else in the form changes.
   */
  lemma SubmitCorrect(f: Form, parseInt: string -> Number, parseFloat: string -> Number)
    ensures Submitted(f, parseInt, parseFloat).1.Some? <==> Trim(f.name) != [] && Trim(f.country) != []
    ensures Trim(f.name) == [] ==> Submitted(f, parseInt, parseFloat).0.errors["name"] == NameRequired
    ensures Trim(f.country) == [] ==> Submitted(f, parseInt, parseFloat).0.errors["country"] == CountryRequired
    ensures Submitted(f, parseInt, parseFloat).0 == f.(errors := Submitted(f, parseInt, parseFloat).0.errors)
  {
    var e := Validate(f);
    if Trim(f.name) == [] {
      assert "name" in e;
    } else if Trim(f.country) == [] {
      assert "country" in e;
    } else {
      assert e.Keys == {};
    }
  }

  /** The component: `this.state` as fields, and the three handlers. */
  class FormComponent {
    var name: string
    var country: string
    var role: string
    var gender: string
    var bio: string
    var tags: string
    var matches: Input
    var runs: Input
    var wickets: Input
    var average: Input
    var image: Option<File>
    var imagePreview: Option<string>
    var errors: map<string, string>

    function Value(): Form
      reads this
    {
      Form(name, country, role, gender, bio, tags, matches, runs, wickets, average, image, imagePreview, errors)
    }

    /** Lines 4-23. */
    constructor(player: Option<Player>)
      ensures Value() == InitialForm(player)
    {
      var f := InitialForm(player);
      name, country, role, gender, bio, tags := f.name, f.country, f.role, f.gender, f.bio, f.tags;
      matches, runs, wickets, average := f.matches, f.runs, f.wickets, f.average;
      image, imagePreview, errors := f.image, f.imagePreview, f.errors;
    }

    /** Lines 25-31. */
    method HandleChange(field: Field, value: string)
      modifies this
      ensures Value() == Changed(old(Value()), field, value)
    {
      errors := errors[field.Key() := []];
      match field
      case NameField => name := value;
      case CountryField => country := value;
      case RoleField => role := value;
      case GenderField => gender := value;
      case BioField => bio := value;
      case TagsField => tags := value;
      case MatchesField => matches := Typed(value);
      case RunsField => runs := Typed(value);
      case WicketsField => wickets := Typed(value);
      case AverageField => average := Typed(value);
    }

    /** Lines 33-58. */
    method HandleImageChange(file: Option<File>)
      modifies this
      ensures Value() == ImageChanged(old(Value()), file)
    {
      if file.Some? {
        var x := file.value;
        if !Contains(x.mimeType, "image") {
          errors := errors[ImageKey := NotImageError];
          return;
        }
        if x.size > 5 * 1024 * 1024 {
          errors := errors[ImageKey := TooLargeError];
          return;
        }
        image := Some(x);
        imagePreview := Some(x.objectUrl);
        errors := errors[ImageKey := []];
      }
    }

    /** Lines 60-91: returns what `onSubmit` is called with, or `None` when it is not called. */
    method HandleSubmit(parseInt: string -> Number, parseFloat: string -> Number) returns (sent: Option<Payload>)
      modifies this
      ensures (Value(), sent) == Submitted(old(Value()), parseInt, parseFloat)
    {
      var found: map<string, string> := map[];
      if Trim(name) == [] {
        found := found["name" := NameRequired];
      }
      if Trim(country) == [] {
        found := found["country" := CountryRequired];
      }
      if |found| > 0 {
        errors := found;
        return None;
      }
      sent := Some(Payload(name, country, role, gender, bio, tags,
                           IntOrZero(matches, parseInt), IntOrZero(runs, parseInt),
                           IntOrZero(wickets, parseInt), FloatOrZero(average, parseFloat),
                           image));
    }
  }
}
