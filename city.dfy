/** `validateAndCleanCity`: the city name is required, is trimmed, and may
    contain only ASCII letters, characters in the ranges U+00C0-U+017F,
    U+4E00-U+9FFF and U+0400-U+04FF, white space, `,`, `.`, `-` and `'`. */
module CityValidator {
  import opened Wrappers
  import opened Text

  datatype CityError =
    | CityRequired   // 'City name is required'
    | InvalidFormat  // 'Invalid city name format'

  /** The character class `[a-zA-ZÀ-ſ一-鿿Ѐ-ӿ\s,.\-']`. */
  predicate IsCityChar(c: char) {
    ('a' <= c <= 'z') || ('A' <= c <= 'Z')
    || (0xC0 <= c as int <= 0x17F)
    || (0x4E00 <= c as int <= 0x9FFF)
    || (0x400 <= c as int <= 0x4FF)
    || IsSpace(c) || c == ',' || c == '.' || c == '-' || c == '\''
  }

  /** `city` is `None` when the parameter is missing or is not a string. */
  function ValidateAndCleanCity(city: Option<string>): (r: Result<string, CityError>)
    ensures r == Err(CityRequired) <==>
              city.None? || forall k | 0 <= k < |city.value| :: IsSpace(city.value[k])
    ensures r == Err(InvalidFormat) <==>
              city.Some? && Trim(city.value) != [] &&
              exists c | c in Trim(city.value) :: !IsCityChar(c)
    ensures r.Ok? ==>
              city.Some? && r.value == Trim(city.value) && r.value != [] &&
              !IsSpace(r.value[0]) && !IsSpace(r.value[|r.value| - 1]) &&
              forall c | c in r.value :: IsCityChar(c)
  {
    if city.None? || Trim(city.value) == [] then
      Err(CityRequired)
    else
      var clean := Trim(city.value);
      if forall c | c in clean :: IsCityChar(c) then Ok(clean) else Err(InvalidFormat)
  }

  /** A name the validator accepted is accepted again unchanged. */
  lemma ValidateIdempotent(city: string)
    requires ValidateAndCleanCity(Some(city)).Ok?
    ensures ValidateAndCleanCity(Some(ValidateAndCleanCity(Some(city)).value))
            == ValidateAndCleanCity(Some(city))
  {
    TrimIdempotent(city);
  }

  /** White space around a city name never changes the verdict or the
      cleaned name. */
  lemma ValidateIgnoresPadding(before: string, city: string, after: string)
    requires AllSpace(before) && AllSpace(after)
    ensures ValidateAndCleanCity(Some(before + city + after)) == ValidateAndCleanCity(Some(city))
  {
    TrimIgnoresPadding(before, city, after);
  }

  /** A name with no white space at either end and a character outside the
      class is refused. */
  lemma RefusedUnpadded(name: string, k: nat)
    requires k < |name| && !IsSpace(name[0]) && !IsSpace(name[|name| - 1])
    requires !IsCityChar(name[k])
    ensures ValidateAndCleanCity(Some(name)) == Err(InvalidFormat)
  {
    TrimUnpadded(name);
    assert name[k] in Trim(name);
  }

  /** A name with no white space at either end and only characters of the
      class is accepted as it is. */
  lemma AcceptedUnpadded(name: string)
    requires |name| > 0 && !IsSpace(name[0]) && !IsSpace(name[|name| - 1])
    requires forall c | c in name :: IsCityChar(c)
    ensures ValidateAndCleanCity(Some(name)) == Ok(name)
  {
    TrimUnpadded(name);
  }

  /** Latin-1 letters are accepted. */
  lemma ValidateAcceptsAccents()
    ensures ValidateAndCleanCity(Some("São Paulo")) == Ok("São Paulo")
  {
    var name := "São Paulo";
    assert !IsSpace(name[0]) && !IsSpace(name[8]);
    assert forall c | c in name :: IsCityChar(c);
    AcceptedUnpadded(name);
  }

  /** A digit anywhere is refused. */
  lemma ValidateRefusesDigits()
    ensures ValidateAndCleanCity(Some("InvalidCity123")) == Err(InvalidFormat)
  {
    var name := "InvalidCity123";
    assert !IsSpace(name[0]) && !IsSpace(name[13]) && !IsCityChar(name[11]);
    RefusedUnpadded(name, 11);
  }
}
