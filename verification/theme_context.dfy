/**
  The theme registry (src/context/ThemeContext.tsx): three built-in themes that cannot be changed
  or deleted, custom themes that can, and the id of the current theme, which falls back to the
  built-in 'default'. Numeric settings (heading scale, spacing) are stored, never computed with.
 */
module ThemeContext {
  import opened Common
  import SeqOps

  datatype ThemeColor = ThemeColor(name: string, value: string)

  /** The six keys of a theme's colour table. */
  datatype ColorKey = Primary | Secondary | Accent | Background | TextColor | Surface

  datatype Colors = Colors(
    primary: ThemeColor, secondary: ThemeColor, accent: ThemeColor,
    background: ThemeColor, text: ThemeColor, surface: ThemeColor)
  {
    /** `colors[key]`. */
    function Get(k: ColorKey): ThemeColor
    {
      match k
      case Primary => primary
      case Secondary => secondary
      case Accent => accent
      case Background => background
      case TextColor => text
      case Surface => surface
    }

    /** `{...colors, [key]: c}`: the entry at `k` replaced, every other entry kept. */
    function With(k: ColorKey, c: ThemeColor): (r: Colors)
      ensures r.Get(k) == c
      ensures forall k' :: k' != k ==> r.Get(k') == Get(k')
    {
      match k
      case Primary => this.(primary := c)
      case Secondary => this.(secondary := c)
      case Accent => this.(accent := c)
      case Background => this.(background := c)
      case TextColor => this.(text := c)
      case Surface => this.(surface := c)
    }
  }

  datatype Typography = Typography(fontFamily: string, titleFontFamily: Option<string>, baseFontSize: string, headingScale: real)
  datatype Spacing = Spacing(base: real, scale: real)

  datatype Theme = Theme(
    id: Id, name: string, colors: Colors, typography: Typography, spacing: Spacing,
    borderRadius: string, isCustom: bool)

  /** `Omit<Theme, 'id' | 'isCustom'>`: what a caller supplies for a new theme. */
  datatype ThemeSettings = ThemeSettings(name: string, colors: Colors, typography: Typography, spacing: Spacing, borderRadius: string)

  /** `Partial<Omit<Theme, 'id' | 'isCustom'>>`. */
  datatype ThemePatch = ThemePatch(
    name: Option<string>, colors: Option<Colors>, typography: Option<Typography>,
    spacing: Option<Spacing>, borderRadius: Option<string>)

  const EmptyThemePatch := ThemePatch(None, None, None, None, None)

  /** The settings part of a theme (its spread without id and flag). */
  function SettingsOf(t: Theme): ThemeSettings
  {
    ThemeSettings(t.name, t.colors, t.typography, t.spacing, t.borderRadius)
  }

  /** `{...settings, id, isCustom: true}`. */
  function CustomTheme(s: ThemeSettings, id: Id): (r: Theme)
    ensures r.id == id && r.isCustom && SettingsOf(r) == s
  {
    Theme(id, s.name, s.colors, s.typography, s.spacing, s.borderRadius, true)
  }

  /** `{...theme, ...patch}`. */
  function PatchTheme(t: Theme, p: ThemePatch): (r: Theme)
    ensures r.id == t.id && r.isCustom == t.isCustom
    ensures r.name == p.name.GetOr(t.name) && r.colors == p.colors.GetOr(t.colors)
    ensures r.typography == p.typography.GetOr(t.typography) && r.spacing == p.spacing.GetOr(t.spacing)
    ensures r.borderRadius == p.borderRadius.GetOr(t.borderRadius)
  {
    Theme(t.id, p.name.GetOr(t.name), p.colors.GetOr(t.colors), p.typography.GetOr(t.typography),
          p.spacing.GetOr(t.spacing), p.borderRadius.GetOr(t.borderRadius), t.isCustom)
  }

  function StandardColors(primary: string, secondary: string, accent: string, background: string, text: string, surface: string): Colors
  {
    Colors(ThemeColor("Primary", primary), ThemeColor("Secondary", secondary), ThemeColor("Accent", accent),
           ThemeColor("Background", background), ThemeColor("Text", text), ThemeColor("Surface", surface))
  }

  /** `defaultThemes`: 'default', 'dark' and 'minimal', none of them custom. */
  function DefaultThemes(): (r: seq<Theme>)
    ensures |r| == 3
    ensures r[0].id == "default" && r[1].id == "dark" && r[2].id == "minimal"
    ensures forall i :: 0 <= i < 3 ==> !r[i].isCustom
  {
    var inter := Typography("Inter, sans-serif", None, "16px", 1.2);
    var spacing := Spacing(8.0, 1.5);
    [ Theme("default", "Default", StandardColors("#3b82f6", "#10b981", "#8b5cf6", "#ffffff", "#1f2937", "#f9fafb"),
            inter, spacing, "0.5rem", false),
      Theme("dark", "Dark Mode", StandardColors("#60a5fa", "#34d399", "#a78bfa", "#111827", "#f9fafb", "#1f2937"),
            inter, spacing, "0.5rem", false),
      Theme("minimal", "Minimal", StandardColors("#000000", "#4b5563", "#ef4444", "#ffffff", "#1f2937", "#f9fafb"),
            Typography("system-ui, sans-serif", None, "16px", 1.2), spacing, "0.25rem", false) ]
  }

  /** `themes.some(t => t.id === id)`. */
  predicate HasTheme(themes: seq<Theme>, id: Id)
  {
    exists i :: 0 <= i < |themes| && themes[i].id == id
  }

  /** The lookup test `t => t.id === id`. */
  function HasId(id: Id): Theme -> bool
  {
    (t: Theme) => t.id == id
  }

  /** `themes.find(t => t.id === id) || themes[0]`. */
  function FindTheme(themes: seq<Theme>, id: Id): (r: Theme)
    requires |themes| > 0
    ensures HasTheme(themes, id) ==> r.id == id && exists i :: 0 <= i < |themes| && themes[i] == r && forall k :: 0 <= k < i ==> themes[k].id != id
    ensures !HasTheme(themes, id) ==> r == themes[0]
  {
    var i := SeqOps.FindIndex(themes, HasId(id));
    if i == -1 then themes[0] else themes[i]
  }

  /** The `updateTheme` map: only custom themes with the id take the patch. */
  function UpdateThemes(themes: seq<Theme>, id: Id, p: ThemePatch): (r: seq<Theme>)
    ensures |r| == |themes|
    ensures forall i :: 0 <= i < |themes| ==> r[i].id == themes[i].id && r[i].isCustom == themes[i].isCustom
    ensures forall i :: 0 <= i < |themes| && !(themes[i].id == id && themes[i].isCustom) ==> r[i] == themes[i]
    ensures forall i :: 0 <= i < |themes| && themes[i].id == id && themes[i].isCustom ==> r[i] == PatchTheme(themes[i], p)
  {
    seq(|themes|, i requires 0 <= i < |themes| =>
      if themes[i].id == id && themes[i].isCustom then PatchTheme(themes[i], p) else themes[i])
  }

  /** The `deleteTheme` filter predicate: keep all but the custom themes with the id. */
  function SurvivesDelete(id: Id): Theme -> bool
  {
    (t: Theme) => !(t.id == id && t.isCustom)
  }

  /** The registry shape every operation keeps: the built-ins first and unchanged, custom themes after them. */
  predicate RegistryShape(themes: seq<Theme>)
  {
    && |themes| >= 3
    && themes[..3] == DefaultThemes()
    && forall i :: 3 <= i < |themes| ==> themes[i].isCustom
  }

  /** The `deleteTheme` filter. */
  function DeleteThemes(themes: seq<Theme>, id: Id): (r: seq<Theme>)
    ensures forall t :: t in r <==> t in themes && !(t.id == id && t.isCustom)
  {
    var r := SeqOps.Filter(themes, SurvivesDelete(id));
    forall t ensures t in r <==> t in themes && SurvivesDelete(id)(t) {
      SeqOps.FilterMembership(themes, SurvivesDelete(id), t);
    }
    r
  }

  /** The delete filter passes a list of built-in themes through untouched. */
  lemma BuiltInsSurviveDelete(a: seq<Theme>, id: Id)
    requires forall k :: 0 <= k < |a| ==> !a[k].isCustom
    ensures SeqOps.Filter(a, SurvivesDelete(id)) == a
  {
    SeqOps.FilterKeepsAll(a, SurvivesDelete(id));
  }

  /** What the delete filter keeps of a list of custom themes is still all custom. */
  lemma CustomStayCustom(b: seq<Theme>, id: Id)
    requires forall k :: 0 <= k < |b| ==> b[k].isCustom
    ensures var r := SeqOps.Filter(b, SurvivesDelete(id));
      forall i :: 0 <= i < |r| ==> r[i].isCustom
  {
    var r := SeqOps.Filter(b, SurvivesDelete(id));
    forall i | 0 <= i < |r| ensures r[i].isCustom {
      assert r[i] in r;
    }
  }

  /**
    Deleting keeps any prefix of built-in themes in front, followed only by custom themes; the
    prefix is a parameter so that the proof never looks inside the built-in theme values.
   */
  lemma DeleteKeepsPrefix(themes: seq<Theme>, builtIns: seq<Theme>, id: Id)
    requires |builtIns| <= |themes| && themes[..|builtIns|] == builtIns
    requires forall k :: 0 <= k < |builtIns| ==> !builtIns[k].isCustom
    requires forall i :: |builtIns| <= i < |themes| ==> themes[i].isCustom
    ensures var r := DeleteThemes(themes, id);
      && |builtIns| <= |r| && r[..|builtIns|] == builtIns
      && forall i :: |builtIns| <= i < |r| ==> r[i].isCustom
  {
    var keep := SurvivesDelete(id);
    var b := themes[|builtIns|..];
    assert themes == builtIns + b;
    SeqOps.FilterAppend(builtIns, b, keep);
    BuiltInsSurviveDelete(builtIns, id);
    CustomStayCustom(b, id);
    var r := DeleteThemes(themes, id);
    assert r == builtIns + SeqOps.Filter(b, keep);
    assert r[..|builtIns|] == builtIns;
  }

  /** Deleting never removes a built-in theme and keeps the registry's shape. */
  lemma DeleteKeepsShape(themes: seq<Theme>, id: Id)
    requires RegistryShape(themes)
    ensures RegistryShape(DeleteThemes(themes, id))
  {
    DeleteKeepsPrefix(themes, DefaultThemes(), id);
  }

  /** Updating never changes a built-in theme and keeps the registry's shape. */
  lemma UpdateKeepsShape(themes: seq<Theme>, id: Id, p: ThemePatch)
    requires RegistryShape(themes)
    ensures RegistryShape(UpdateThemes(themes, id, p))
  {
    assert UpdateThemes(themes, id, p)[..3] == themes[..3];
  }

  class ThemeRegistry {
    var themes: seq<Theme>
    var currentThemeId: Id

    /** The shape invariant, and the current id names a theme. */
    predicate Valid()
      reads this
    {
      RegistryShape(themes) && HasTheme(themes, currentThemeId)
    }

    /** The built-in themes, 'default' current. */
    constructor()
      ensures Valid()
      ensures themes == DefaultThemes() && currentThemeId == "default"
    {
      themes := DefaultThemes();
      currentThemeId := "default";
      new;
      assert themes[0].id == "default";
    }

    /** The derived `currentTheme`. */
    function CurrentTheme(): (r: Theme)
      requires Valid()
      reads this
      ensures r.id == currentThemeId && r in themes
    {
      FindTheme(themes, currentThemeId)
    }

    /** `setCurrentTheme(id)`: only an existing id is accepted. */
    method SetCurrentTheme(id: Id)
      requires Valid()
      modifies this`currentThemeId
      ensures Valid()
      ensures currentThemeId == if HasTheme(themes, id) then id else old(currentThemeId)
    {
      if HasTheme(themes, id) {
        currentThemeId := id;
      }
    }

    /** `addCustomTheme(settings)`: append a custom theme with the fresh id and make it current. */
    method AddCustomTheme(s: ThemeSettings, freshId: Id)
      requires Valid()
      modifies this`themes, this`currentThemeId
      ensures Valid()
      ensures themes == old(themes) + [CustomTheme(s, freshId)]
      ensures currentThemeId == freshId
      ensures !HasTheme(old(themes), freshId) ==> CurrentTheme() == CustomTheme(s, freshId)
    {
      themes := themes + [CustomTheme(s, freshId)];
      currentThemeId := freshId;
      assert themes[..3] == old(themes)[..3];
      assert themes[|themes| - 1].id == freshId;
      if !HasTheme(old(themes), freshId) {
        assert forall k :: 0 <= k < |themes| - 1 ==> themes[k] == old(themes)[k];
      }
    }

    /** `updateTheme(id, patch)`: only a custom theme with the id changes. */
    method UpdateTheme(id: Id, p: ThemePatch)
      requires Valid()
      modifies this`themes
      ensures Valid()
      ensures themes == UpdateThemes(old(themes), id, p)
      ensures themes[..3] == DefaultThemes()
    {
      UpdateKeepsShape(themes, id, p);
      var j :| 0 <= j < |themes| && themes[j].id == currentThemeId;
      themes := UpdateThemes(themes, id, p);
      assert themes[j].id == currentThemeId;
    }

    /**
      `deleteTheme(id)`: remove the custom themes with the id; if the id is the current one, the
      current id becomes 'default', even when nothing was removed.
     */
    method DeleteTheme(id: Id)
      requires Valid()
      modifies this`themes, this`currentThemeId
      ensures Valid()
      ensures themes == DeleteThemes(old(themes), id)
      ensures themes[..3] == DefaultThemes()
      ensures currentThemeId == if old(currentThemeId) == id then "default" else old(currentThemeId)
    {
      DeleteKeepsShape(themes, id);
      var j :| 0 <= j < |themes| && themes[j].id == currentThemeId;
      var before := themes;
      themes := DeleteThemes(themes, id);
      if currentThemeId == id {
        currentThemeId := "default";
        assert themes[0].id == "default";
      } else {
        assert before[j] in themes;
      }
    }
  }
}
