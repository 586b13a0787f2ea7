/**
 * The request validators: `validateProductData` collects every problem with a
 * product body into a list of messages, `validateHexColor` is the colour-code
 * pattern, and `validateReviewData` checks a review body the same way.
 *
 * A field the body leaves out is the empty string where the check tests
 * truthiness, and `None` where the check tests the field's type (a price or a
 * stock that is not a number, a list that is not an array).
 */
module Validation {
  import opened Wrappers
  import opened Text
  import opened Pattern

  /** What both validators return. */
  datatype Verdict<E> = Verdict(isValid: bool, errors: seq<E>)

  datatype ColorInput = ColorInput(name: string, code: string)
  datatype SizeInput = SizeInput(name: string, stock: Option<int>)

  /** The fields of a product body that `validateProductData` reads. */
  datatype ProductData = ProductData(
    name: string,
    description: string,
    price: Option<int>,
    category: string,
    images: Option<seq<string>>,
    colors: Option<seq<ColorInput>>,
    sizes: Option<seq<SizeInput>>)

  // ----- Colour codes -----

  /** `/^#[0-9A-Fa-f]{6}$/` */
  const HexColorPattern: seq<Piece> := [Lit('#'), Run(HexDigit, 6, 6)]

  /** `validateHexColor` */
  predicate ValidateHexColor(code: string) {
    Matches(HexColorPattern, code)
  }

  /** A colour code is valid exactly when it is `#` followed by six hex digits. */
  lemma HexColorShape(code: string)
    ensures ValidateHexColor(code) <==>
      |code| == 7 && code[0] == '#' && forall i :: 1 <= i < 7 ==> IsHexDigit(code[i])
  {
    LitThen('#', [Run(HexDigit, 6, 6)], code);
    assert HexColorPattern == [Lit('#')] + [Run(HexDigit, 6, 6)];
    if code != [] {
      SingleRun(HexDigit, 6, 6, code[1..]);
      if |code| == 7 {
        assert forall i :: 1 <= i < 7 ==> code[i] == code[1..][i - 1];
      }
    }
  }

  // ----- Product data -----

  /**
   * How a message names a colour or a size: by its name when that is not
   * empty, otherwise by its position (from 0, shown from 1).
   */
  datatype Subject = Named(name: string) | Numbered(index: nat)

  /**
   * The messages `validateProductData` pushes, one constructor per message; a
   * colour or size is identified by its position (from 0) or by its subject.
   */
  datatype ProductError =
    | NameRequired
    | DescriptionRequired
    | PriceRequired
    | CategoryRequired
    | ImageRequired
    | ColorRequired
    | ColorNameRequired(index: nat)
    | BadColorCode(subject: Subject)
    | SizeRequired
    | SizeNameRequired(index: nat)
    | BadStock(subject: Subject)

  /** `#${index + 1}` */
  function Ordinal(index: nat): string {
    "#" + NatToString(index + 1)
  }

  /** `color.name || \`color #${index + 1}\``: the raw name, or the position when the name is empty. */
  function ColorLabel(c: ColorInput, index: nat): Subject {
    if c.name != "" then Named(c.name) else Numbered(index)
  }

  function SizeLabel(s: SizeInput, index: nat): Subject {
    if s.name != "" then Named(s.name) else Numbered(index)
  }

  /** The text of a subject; `noun` is what a numbered one is called. */
  function SubjectText(noun: string, subject: Subject): string {
    match subject
    case Named(name) => name
    case Numbered(i) => noun + " " + Ordinal(i)
  }

  /** The text of each message. */
  function Message(e: ProductError): string {
    match e
    case NameRequired => "Product name is required"
    case DescriptionRequired => "Product description is required"
    case PriceRequired => "Valid price is required"
    case CategoryRequired => "Category is required"
    case ImageRequired => "At least one product image is required"
    case ColorRequired => "At least one color is required"
    case ColorNameRequired(i) => "Color name is required for color " + Ordinal(i)
    case BadColorCode(subject) => "Invalid color code for " + SubjectText("color", subject)
    case SizeRequired => "At least one size is required"
    case SizeNameRequired(i) => "Size name is required for size " + Ordinal(i)
    case BadStock(subject) => "Invalid stock quantity for " + SubjectText("size", subject)
  }

  /** The checks of the top-level fields, in order. */
  function FieldErrors(data: ProductData): seq<ProductError> {
    (if IsBlank(data.name) then [NameRequired] else [])
    + (if IsBlank(data.description) then [DescriptionRequired] else [])
    + (if data.price.None? || data.price.value <= 0 then [PriceRequired] else [])
    + (if data.category == "" then [CategoryRequired] else [])
    + (if data.images.None? || data.images.value == [] then [ImageRequired] else [])
  }

  /** The messages for the colour at position `index`. */
  function ColorErrorsAt(c: ColorInput, index: nat): seq<ProductError> {
    (if IsBlank(c.name) then [ColorNameRequired(index)] else [])
    + (if !ValidateHexColor(c.code) then [BadColorCode(ColorLabel(c, index))] else [])
  }

  /**
   * The messages a `forEach` over `xs` pushes, in order, when `check(x, i)`
   * are the messages for the element `x` at position `i`.
   */
  function EachErrors<T>(xs: seq<T>, check: (T, nat) -> seq<ProductError>): seq<ProductError> {
    if xs == [] then []
    else EachErrors(xs[..|xs| - 1], check) + check(xs[|xs| - 1], |xs| - 1)
  }

  /** The messages of the `forEach` over the colours. */
  function ColorListErrors(cs: seq<ColorInput>): seq<ProductError> {
    EachErrors(cs, ColorErrorsAt)
  }

  function ColorErrors(colors: Option<seq<ColorInput>>): seq<ProductError> {
    if colors.None? || colors.value == [] then [ColorRequired] else ColorListErrors(colors.value)
  }

  function SizeErrorsAt(s: SizeInput, index: nat): seq<ProductError> {
    (if IsBlank(s.name) then [SizeNameRequired(index)] else [])
    + (if s.stock.None? || s.stock.value < 0 then [BadStock(SizeLabel(s, index))] else [])
  }

  function SizeListErrors(ss: seq<SizeInput>): seq<ProductError> {
    EachErrors(ss, SizeErrorsAt)
  }

  function SizeErrors(sizes: Option<seq<SizeInput>>): seq<ProductError> {
    if sizes.None? || sizes.value == [] then [SizeRequired] else SizeListErrors(sizes.value)
  }

  /** Every message `validateProductData` pushes, in the order it pushes them. */
  function ProductErrors(data: ProductData): seq<ProductError> {
    FieldErrors(data) + ColorErrors(data.colors) + SizeErrors(data.sizes)
  }

  /** What a valid product body is, stated field by field. */
  predicate ValidProduct(data: ProductData) {
    && !IsBlank(data.name)
    && !IsBlank(data.description)
    && data.price.Some? && data.price.value > 0
    && data.category != ""
    && data.images.Some? && data.images.value != []
    && data.colors.Some? && data.colors.value != []
    && (forall i :: 0 <= i < |data.colors.value| ==>
          !IsBlank(data.colors.value[i].name) && ValidateHexColor(data.colors.value[i].code))
    && data.sizes.Some? && data.sizes.value != []
    && (forall i :: 0 <= i < |data.sizes.value| ==>
          !IsBlank(data.sizes.value[i].name) && data.sizes.value[i].stock.Some? && data.sizes.value[i].stock.value >= 0)
  }

  /**
   * The `forEach` over the colours of `validateProductData`: for each colour in
   * turn, a message when its name is blank and one when its code is not a colour code.
   */
  method CollectColorErrors(colors: seq<ColorInput>) returns (errors: seq<ProductError>)
    ensures errors == ColorListErrors(colors)
  {
    errors := [];
    var index := 0;
    while index < |colors|
      invariant 0 <= index <= |colors|
      invariant errors == ColorListErrors(colors[..index])
    {
      assert colors[..index + 1][..index] == colors[..index];
      var color := colors[index];
      ghost var before := errors;
      if IsBlank(color.name) {
        errors := errors + [ColorNameRequired(index)];
      }
      if !ValidateHexColor(color.code) {
        errors := errors + [BadColorCode(ColorLabel(color, index))];
      }
      assert errors == before + ColorErrorsAt(color, index);
      index := index + 1;
    }
    assert colors[..index] == colors;
  }

  /**
   * The `forEach` over the sizes: for each size in turn, a message when its name
   * is blank and one when its stock is not a number or is negative.
   */
  method CollectSizeErrors(sizes: seq<SizeInput>) returns (errors: seq<ProductError>)
    ensures errors == SizeListErrors(sizes)
  {
    errors := [];
    var index := 0;
    while index < |sizes|
      invariant 0 <= index <= |sizes|
      invariant errors == SizeListErrors(sizes[..index])
    {
      assert sizes[..index + 1][..index] == sizes[..index];
      var size := sizes[index];
      ghost var before := errors;
      if IsBlank(size.name) {
        errors := errors + [SizeNameRequired(index)];
      }
      if size.stock.None? || size.stock.value < 0 {
        errors := errors + [BadStock(SizeLabel(size, index))];
      }
      assert errors == before + SizeErrorsAt(size, index);
      index := index + 1;
    }
    assert sizes[..index] == sizes;
  }

  /**
   * `validateProductData`: every check runs, the messages come in the order the
   * checks push them, and the body is valid exactly when there is none, which is
   * exactly when every field passes (`ProductErrorsEmptyIff`).
   */
  method ValidateProductData(data: ProductData) returns (v: Verdict<ProductError>)
    ensures v.errors == ProductErrors(data)
    ensures v.isValid <==> v.errors == []
    ensures v.isValid <==> ValidProduct(data)
  {
    var errors := FieldErrors(data);
    if data.colors.None? || data.colors.value == [] {
      errors := errors + [ColorRequired];
    } else {
      var colorErrors := CollectColorErrors(data.colors.value);
      errors := errors + colorErrors;
    }
    if data.sizes.None? || data.sizes.value == [] {
      errors := errors + [SizeRequired];
    } else {
      var sizeErrors := CollectSizeErrors(data.sizes.value);
      errors := errors + sizeErrors;
    }
    ProductErrorsEmptyIff(data);
    v := Verdict(errors == [], errors);
  }

  /** `m` is one of the messages about the colour `c` at position `i`. */
  predicate ColorMessage(c: ColorInput, i: nat, m: ProductError) {
    (IsBlank(c.name) && m == ColorNameRequired(i)) || (!ValidateHexColor(c.code) && m == BadColorCode(ColorLabel(c, i)))
  }

  /** `m` is one of the messages about the size `s` at position `i`. */
  predicate SizeMessage(s: SizeInput, i: nat, m: ProductError) {
    (IsBlank(s.name) && m == SizeNameRequired(i)) || ((s.stock.None? || s.stock.value < 0) && m == BadStock(SizeLabel(s, i)))
  }

  /** The messages about one colour are the ones `ColorMessage` describes. */
  lemma ColorErrorsAtMember(x: ColorInput, i: nat, m: ProductError)
    ensures m in ColorErrorsAt(x, i) <==> ColorMessage(x, i, m)
  {
  }

  /** Every message the check gives for one of the elements is among the loop's messages. */
  lemma {:induction false} EachMemberAt<T>(xs: seq<T>, check: (T, nat) -> seq<ProductError>, i: nat, m: ProductError)
    requires i < |xs| && m in check(xs[i], i)
    ensures m in EachErrors(xs, check)
  {
    var front, last := xs[..|xs| - 1], |xs| - 1;
    assert EachErrors(xs, check) == EachErrors(front, check) + check(xs[last], last);
    if i < last {
      assert front[i] == xs[i];
      EachMemberAt(front, check, i, m);
    }
  }

  /** Every message of the loop is one the check gives for an element: `i` is its position. */
  lemma {:induction false} EachMemberSource<T>(xs: seq<T>, check: (T, nat) -> seq<ProductError>, m: ProductError) returns (i: nat)
    requires m in EachErrors(xs, check)
    ensures i < |xs| && m in check(xs[i], i)
  {
    var front, last := xs[..|xs| - 1], |xs| - 1;
    assert EachErrors(xs, check) == EachErrors(front, check) + check(xs[last], last);
    if m in EachErrors(front, check) {
      i := EachMemberSource(front, check, m);
      assert front[i] == xs[i];
    } else {
      i := last;
    }
  }

  /** The messages about colours name a colour, by name or by position. */
  lemma ColorListErrorsSpec(cs: seq<ColorInput>)
    ensures forall m :: m in ColorListErrors(cs) <==> exists i :: 0 <= i < |cs| && ColorMessage(cs[i], i, m)
  {
    forall m
      ensures m in ColorListErrors(cs) <==> exists i :: 0 <= i < |cs| && ColorMessage(cs[i], i, m)
    {
      if m in ColorListErrors(cs) {
        var i := EachMemberSource(cs, ColorErrorsAt, m);
        ColorErrorsAtMember(cs[i], i, m);
      }
      if exists i :: 0 <= i < |cs| && ColorMessage(cs[i], i, m) {
        var i :| 0 <= i < |cs| && ColorMessage(cs[i], i, m);
        ColorErrorsAtMember(cs[i], i, m);
        EachMemberAt(cs, ColorErrorsAt, i, m);
      }
    }
  }

  /**
   * An empty or missing colour list gives exactly one message and no per-colour
   * ones; otherwise there is one message for each colour with a blank name and
   * one for each colour with a bad code, and no other.
   */
  lemma ColorErrorsSpec(colors: Option<seq<ColorInput>>)
    ensures colors.None? || colors.value == [] ==> ColorErrors(colors) == [ColorRequired]
    ensures colors.Some? && colors.value != [] ==>
      var cs := colors.value;
      forall m :: m in ColorErrors(colors) <==> exists i :: 0 <= i < |cs| && ColorMessage(cs[i], i, m)
  {
    if colors.Some? {
      ColorListErrorsSpec(colors.value);
    }
  }

  /** The messages about one size are the ones `SizeMessage` describes. */
  lemma SizeErrorsAtMember(x: SizeInput, i: nat, m: ProductError)
    ensures m in SizeErrorsAt(x, i) <==> SizeMessage(x, i, m)
  {
  }

  /** The messages about sizes name a size, by name or by position. */
  lemma SizeListErrorsSpec(ss: seq<SizeInput>)
    ensures forall m :: m in SizeListErrors(ss) <==> exists i :: 0 <= i < |ss| && SizeMessage(ss[i], i, m)
  {
    forall m
      ensures m in SizeListErrors(ss) <==> exists i :: 0 <= i < |ss| && SizeMessage(ss[i], i, m)
    {
      if m in SizeListErrors(ss) {
        var i := EachMemberSource(ss, SizeErrorsAt, m);
        SizeErrorsAtMember(ss[i], i, m);
      }
      if exists i :: 0 <= i < |ss| && SizeMessage(ss[i], i, m) {
        var i :| 0 <= i < |ss| && SizeMessage(ss[i], i, m);
        SizeErrorsAtMember(ss[i], i, m);
        EachMemberAt(ss, SizeErrorsAt, i, m);
      }
    }
  }

  /**
   * An empty or missing size list gives exactly one message; otherwise each size
   * whose stock is not a number or is negative, and each size with a blank name,
   * gives one message, and there is no other.
   */
  lemma SizeErrorsSpec(sizes: Option<seq<SizeInput>>)
    ensures sizes.None? || sizes.value == [] ==> SizeErrors(sizes) == [SizeRequired]
    ensures sizes.Some? && sizes.value != [] ==>
      var ss := sizes.value;
      forall m :: m in SizeErrors(sizes) <==> exists i :: 0 <= i < |ss| && SizeMessage(ss[i], i, m)
  {
    if sizes.Some? {
      SizeListErrorsSpec(sizes.value);
    }
  }

  /** The per-colour messages are about colours, and none is the list-level one. */
  lemma ColorListErrorsKinds(cs: seq<ColorInput>)
    ensures forall m :: m in ColorListErrors(cs) ==> m.ColorNameRequired? || m.BadColorCode?
  {
    forall m | m in ColorListErrors(cs)
      ensures m.ColorNameRequired? || m.BadColorCode?
    {
      var i := EachMemberSource(cs, ColorErrorsAt, m);
    }
  }

  lemma SizeListErrorsKinds(ss: seq<SizeInput>)
    ensures forall m :: m in SizeListErrors(ss) ==> m.SizeNameRequired? || m.BadStock?
  {
    forall m | m in SizeListErrors(ss)
      ensures m.SizeNameRequired? || m.BadStock?
    {
      var i := EachMemberSource(ss, SizeErrorsAt, m);
    }
  }

  /** No message about the colour or size lists is one of the field messages. */
  lemma ListErrorsNotFieldErrors(data: ProductData)
    ensures forall m :: m in ColorErrors(data.colors) + SizeErrors(data.sizes) ==>
      !m.NameRequired? && !m.DescriptionRequired? && !m.PriceRequired?
  {
    if data.colors.Some? { ColorListErrorsKinds(data.colors.value); }
    if data.sizes.Some? { SizeListErrorsKinds(data.sizes.value); }
  }

  /**
   * The name, description and price each have their own message, which appears
   * exactly when that field fails its check.
   */
  lemma FieldMessages(data: ProductData)
    ensures NameRequired in ProductErrors(data) <==> IsBlank(data.name)
    ensures DescriptionRequired in ProductErrors(data) <==> IsBlank(data.description)
    ensures PriceRequired in ProductErrors(data) <==> data.price.None? || data.price.value <= 0
  {
    var rest := ColorErrors(data.colors) + SizeErrors(data.sizes);
    ListErrorsNotFieldErrors(data);
    assert ProductErrors(data) == FieldErrors(data) + rest;
    assert NameRequired !in rest && DescriptionRequired !in rest && PriceRequired !in rest;
  }

  /** One colour gives no message exactly when it passes both checks. */
  lemma ColorErrorsAtSilent(c: ColorInput, i: nat)
    ensures ColorErrorsAt(c, i) == [] <==> !IsBlank(c.name) && ValidateHexColor(c.code)
  {
  }

  /** The colour loop is silent exactly when every colour has a name and a valid code. */
  lemma ColorListSilentIff(cs: seq<ColorInput>)
    ensures ColorListErrors(cs) == [] <==> forall i :: 0 <= i < |cs| ==> !IsBlank(cs[i].name) && ValidateHexColor(cs[i].code)
  {
    if ColorListErrors(cs) == [] {
      forall i | 0 <= i < |cs|
        ensures !IsBlank(cs[i].name) && ValidateHexColor(cs[i].code)
      {
        ColorErrorsAtSilent(cs[i], i);
        if ColorErrorsAt(cs[i], i) != [] {
          EachMemberAt(cs, ColorErrorsAt, i, ColorErrorsAt(cs[i], i)[0]);
        }
      }
    } else {
      var i := EachMemberSource(cs, ColorErrorsAt, ColorListErrors(cs)[0]);
      ColorErrorsAtSilent(cs[i], i);
    }
  }

  /** One size gives no message exactly when it passes both checks. */
  lemma SizeErrorsAtSilent(c: SizeInput, i: nat)
    ensures SizeErrorsAt(c, i) == [] <==> !IsBlank(c.name) && c.stock.Some? && c.stock.value >= 0
  {
  }

  /** The size loop is silent exactly when every size has a name and a stock that is a number, at least 0. */
  lemma SizeListSilentIff(ss: seq<SizeInput>)
    ensures SizeListErrors(ss) == [] <==> forall i :: 0 <= i < |ss| ==> !IsBlank(ss[i].name) && ss[i].stock.Some? && ss[i].stock.value >= 0
  {
    if SizeListErrors(ss) == [] {
      forall i | 0 <= i < |ss|
        ensures !IsBlank(ss[i].name) && ss[i].stock.Some? && ss[i].stock.value >= 0
      {
        SizeErrorsAtSilent(ss[i], i);
        if SizeErrorsAt(ss[i], i) != [] {
          EachMemberAt(ss, SizeErrorsAt, i, SizeErrorsAt(ss[i], i)[0]);
        }
      }
    } else {
      var i := EachMemberSource(ss, SizeErrorsAt, SizeListErrors(ss)[0]);
      SizeErrorsAtSilent(ss[i], i);
    }
  }

  /** The body is valid exactly when every field passes: `isValid` means `ValidProduct`. */
  lemma ProductErrorsEmptyIff(data: ProductData)
    ensures ProductErrors(data) == [] <==> ValidProduct(data)
  {
    if data.colors.Some? { ColorListSilentIff(data.colors.value); }
    if data.sizes.Some? { SizeListSilentIff(data.sizes.value); }
  }

  /** A body that validates has at least one size, and every size has a stock that is a number, at least 0. */
  lemma ValidSizesHaveStock(data: ProductData)
    requires ProductErrors(data) == []
    ensures data.sizes.Some? && data.sizes.value != []
    ensures forall i :: 0 <= i < |data.sizes.value| ==>
      data.sizes.value[i].stock.Some? && data.sizes.value[i].stock.value >= 0
  {
    ProductErrorsEmptyIff(data);
  }

  // ----- Review data -----

  /** The `photos` field: absent or falsy, a value that is not an array, or an array. */
  datatype PhotosField = NoPhotos | NotAnArray | PhotoList(photos: seq<string>)

  datatype ReviewData = ReviewData(rating: Option<int>, comment: string, photos: PhotosField)

  datatype ReviewError = RatingRange | CommentRequired | CommentTooShort | PhotosNotArray | TooManyPhotos

  function ReviewMessage(e: ReviewError): string {
    match e
    case RatingRange => "Rating must be between 1 and 5"
    case CommentRequired => "Review comment is required"
    case CommentTooShort => "Review comment must be at least 10 characters long"
    case PhotosNotArray => "Photos must be provided as an array"
    case TooManyPhotos => "Maximum 5 photos allowed per review"
  }

  /**
   * `validateReviewData`: the rating must be a number from 1 to 5, the comment
   * non-blank and at least 10 long (JavaScript's `length`, in UTF-16 code units,
   * counted before trimming), and photos, when given, an array of at most 5.
   */
  function ValidateReviewData(data: ReviewData): (v: Verdict<ReviewError>)
    ensures v.isValid <==> v.errors == []
    ensures v.isValid <==>
      && data.rating.Some? && 1 <= data.rating.value <= 5
      && !IsBlank(data.comment) && Utf16Length(data.comment) >= 10
      && (data.photos.NotAnArray? ==> false)
      && (data.photos.PhotoList? ==> |data.photos.photos| <= 5)
    ensures RatingRange in v.errors <==> data.rating.None? || data.rating.value < 1 || data.rating.value > 5
    ensures CommentRequired in v.errors <==> IsBlank(data.comment)
    ensures CommentTooShort in v.errors <==> !IsBlank(data.comment) && Utf16Length(data.comment) < 10
    ensures PhotosNotArray in v.errors <==> data.photos.NotAnArray?
    ensures TooManyPhotos in v.errors <==> data.photos.PhotoList? && |data.photos.photos| > 5
    ensures |v.errors| <= 3
  {
    var rating := if data.rating.None? || data.rating.value < 1 || data.rating.value > 5 then [RatingRange] else [];
    var comment :=
      if IsBlank(data.comment) then [CommentRequired]
      else if Utf16Length(data.comment) < 10 then [CommentTooShort]
      else [];
    var photos :=
      match data.photos
      case NoPhotos => []
      case NotAnArray => [PhotosNotArray]
      case PhotoList(p) => if |p| > 5 then [TooManyPhotos] else [];
    var errors := rating + comment + photos;
    Verdict(errors == [], errors)
  }

  /** Five astral characters (emoji) are ten code units long: a comment the length rule accepts. */
  lemma AstralCommentLongEnough()
    ensures var c := ['\U{1F600}', '\U{1F600}', '\U{1F600}', '\U{1F600}', '\U{1F600}'];
      |c| == 5 && CommentTooShort !in ValidateReviewData(ReviewData(Some(5), c, NoPhotos)).errors
  {
    var c := ['\U{1F600}', '\U{1F600}', '\U{1F600}', '\U{1F600}', '\U{1F600}'];
    assert !IsJsSpace(c[0]);
    Utf16LengthAstral(c);
  }
}
