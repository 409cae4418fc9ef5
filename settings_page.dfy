/**
 * The admin settings form (client/src/pages/admin/SettingsPage.tsx): the name and
 * colour rules of `restaurantSettingsSchema`, the values the form starts from, and the
 * multipart body a valid form submits.
 */
module SettingsPage {
  import opened Wrappers
  import opened Schema
  import Text

  /** `([0-9A-F]{3}){n}` under the `i` flag: `t` is exactly `n` groups of three hexadecimal digits. */
  predicate HexGroups(t: string, n: nat)
    decreases n
  {
    if n == 0 then t == []
    else |t| >= 3 && Text.AllHexDigits(t[..3]) && HexGroups(t[3..], n - 1)
  }

  /** `/^#([0-9A-F]{3}){1,2}$/i.test(s)` */
  predicate MatchesColourPattern(s: string) {
    |s| >= 1 && s[0] == '#' && (HexGroups(s[1..], 1) || HexGroups(s[1..], 2))
  }

  /** One group is three hexadecimal digits and nothing more. */
  lemma OneGroup(t: string)
    ensures HexGroups(t, 1) <==> |t| == 3 && Text.AllHexDigits(t)
  {
    if |t| == 3 {
      assert t[..3] == t;
    }
  }

  /** Two groups are six hexadecimal digits and nothing more. */
  lemma TwoGroups(t: string)
    ensures HexGroups(t, 2) <==> |t| == 6 && Text.AllHexDigits(t)
  {
    if |t| >= 3 {
      var u := t[3..];
      OneGroup(u);
      if |t| == 6 && Text.AllHexDigits(t) {
        assert Text.AllHexDigits(t[..3]) && Text.AllHexDigits(u);
      }
      if HexGroups(t, 2) {
        forall k | 0 <= k < |t| ensures Text.IsHexDigit(t[k]) {
          if k < 3 {
            assert t[..3][k] == t[k];
          } else {
            assert u[k - 3] == t[k];
          }
        }
      }
    }
  }

  /** What the pattern accepts, said plainly: "#" and then exactly three or six hexadecimal digits of either case. */
  lemma ColourPatternMeans(s: string)
    ensures MatchesColourPattern(s) <==>
      (|s| == 4 || |s| == 7) && s[0] == '#' && Text.AllHexDigits(s[1..])
  {
    if |s| >= 1 {
      OneGroup(s[1..]);
      TwoGroups(s[1..]);
    }
  }

  /** The fallback colour passes the form's own check. */
  lemma FallbackColourAccepted()
    ensures MatchesColourPattern(FallbackColour)
  {
    ColourPatternMeans(FallbackColour);
  }

  /** Colours of any digit count but three and six, without the "#", or with a non-hexadecimal digit are refused. */
  lemma BadColoursRefused(s: string)
    requires |s| == 0 || s[0] != '#' || (|s| != 4 && |s| != 7) || exists k :: 1 <= k < |s| && !Text.IsHexDigit(s[k])
    ensures !MatchesColourPattern(s)
  {
    ColourPatternMeans(s);
    if exists k :: 1 <= k < |s| && !Text.IsHexDigit(s[k]) {
      var k :| 1 <= k < |s| && !Text.IsHexDigit(s[k]);
      assert s[1..][k - 1] == s[k];
    }
  }

  const FallbackColour: string := "#8D4E00"

  /** The form's two fields. */
  datatype SettingsValues = SettingsValues(name: string, primaryColor: string)

  /** `restaurantSettingsSchema`: the message of each field that fails, in field order. */
  function SettingsErrors(values: SettingsValues): (r: seq<string>)
    ensures r == [] <==> |values.name| >= 1 && MatchesColourPattern(values.primaryColor)
    ensures |values.name| == 0 ==> |r| >= 1 && r[0] == "HandPlatter name is required"
  {
    (if |values.name| < 1 then ["HandPlatter name is required"] else []) +
    (if MatchesColourPattern(values.primaryColor) then [] else ["Invalid color format"])
  }

  /** `settings?.name || ""` and `settings?.primaryColor || "#8D4E00"`. */
  function FormDefaults(settings: Option<Settings>): (r: SettingsValues)
    ensures settings.None? ==> r == SettingsValues("", FallbackColour)
    ensures settings.Some? ==> r.name == settings.value.name
    ensures settings.Some? && settings.value.primaryColor.Some? && settings.value.primaryColor.value != "" ==>
      r.primaryColor == settings.value.primaryColor.value
  {
    if settings.None? then SettingsValues("", FallbackColour)
    else
      var colour := settings.value.primaryColor;
      SettingsValues(settings.value.name, if colour.None? || colour.value == "" then FallbackColour else colour.value)
  }

  /** A form that starts without a stored colour starts with one the colour rule accepts. */
  lemma DefaultColourAccepted(settings: Option<Settings>)
    requires settings.None? || settings.value.primaryColor.None? || settings.value.primaryColor == Some("")
    ensures MatchesColourPattern(FormDefaults(settings).primaryColor)
  {
    FallbackColourAccepted();
  }

  /** One `formData.append(key, value)`; a chosen file is an abstract handle. */
  datatype FormField = TextField(key: string, text: string) | FileField(key: string, file: int)

  /** `onSubmit`: name and primaryColor always, the logo only when a file was chosen. */
  function SettingsBody(values: SettingsValues, logoFile: Option<int>): (r: seq<FormField>)
    ensures |r| >= 2 && r[0] == TextField("name", values.name) && r[1] == TextField("primaryColor", values.primaryColor)
  {
    [TextField("name", values.name), TextField("primaryColor", values.primaryColor)] +
    (if logoFile.Some? then [FileField("logo", logoFile.value)] else [])
  }

  /** The form submits only valid values. */
  function SubmitSettings(values: SettingsValues, logoFile: Option<int>): (r: Option<seq<FormField>>)
    ensures r.Some? <==> SettingsErrors(values) == []
  {
    if SettingsErrors(values) == [] then Some(SettingsBody(values, logoFile)) else None
  }

  /**
   * A submitted body holds a name that is not empty and a colour the pattern accepts,
   * and it has a "logo" entry, holding the chosen file, exactly when a file was chosen.
   */
  lemma SubmittedBody(values: SettingsValues, logoFile: Option<int>)
    requires SubmitSettings(values, logoFile).Some?
    ensures var body := SubmitSettings(values, logoFile).value;
      body[0] == TextField("name", values.name) && |values.name| >= 1 &&
      body[1] == TextField("primaryColor", values.primaryColor) && MatchesColourPattern(values.primaryColor) &&
      ((exists k :: 0 <= k < |body| && body[k].key == "logo") <==> logoFile.Some?) &&
      (logoFile.Some? ==> body == [body[0], body[1], FileField("logo", logoFile.value)])
  {
    var body := SubmitSettings(values, logoFile).value;
    if logoFile.Some? {
      assert body[2].key == "logo";
    } else {
      assert |body| == 2;
    }
  }
}
