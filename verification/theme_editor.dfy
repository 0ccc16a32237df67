/**
  The theme editor's handlers (src/components/ContentCreator/ThemeEditor/ThemeEditor.tsx). An
  edit to a built-in theme never changes it: it forks a custom copy with the edit applied,
  named after `customThemeName`, which becomes current. An edit to a custom theme rewrites that
  theme's field group in place.
 */
module ThemeEditor {
  import opened Common
  import opened ThemeContext
  import SeqOps

  /** `customThemeName`: its setter is never called, so it keeps its initial value. */
  const CustomThemeName: string := "Custom Theme"

  /** The five edits the form offers. The sliders deliver `value[0]`, given here directly. */
  datatype Edit =
    | ColorEdit(key: ColorKey, value: string)
    | FontFamilyEdit(fontFamily: string)
    | BaseFontSizeEdit(baseFontSize: string)
    | HeadingScaleEdit(headingScale: real)
    | SpacingBaseEdit(base: real)

  /**
    The field group a handler writes: `{colors: {...colors, [key]: {...colors[key], value}}}`,
    `{typography: {...typography, field}}` or `{spacing: {...spacing, base}}`.
   */
  function EditPatch(t: Theme, e: Edit): (r: ThemePatch)
    ensures r.name.None? && r.borderRadius.None?
    ensures e.ColorEdit? <==> r.colors.Some?
    ensures e.SpacingBaseEdit? <==> r.spacing.Some?
    ensures e.FontFamilyEdit? || e.BaseFontSizeEdit? || e.HeadingScaleEdit? <==> r.typography.Some?
  {
    match e
    case ColorEdit(k, v) => EmptyThemePatch.(colors := Some(t.colors.With(k, t.colors.Get(k).(value := v))))
    case FontFamilyEdit(f) => EmptyThemePatch.(typography := Some(t.typography.(fontFamily := f)))
    case BaseFontSizeEdit(s) => EmptyThemePatch.(typography := Some(t.typography.(baseFontSize := s)))
    case HeadingScaleEdit(h) => EmptyThemePatch.(typography := Some(t.typography.(headingScale := h)))
    case SpacingBaseEdit(b) => EmptyThemePatch.(spacing := Some(t.spacing.(base := b)))
  }

  /** The theme with the edit applied. */
  function Edited(t: Theme, e: Edit): (r: Theme)
    ensures r.id == t.id && r.isCustom == t.isCustom && r.name == t.name && r.borderRadius == t.borderRadius
  {
    PatchTheme(t, EditPatch(t, e))
  }

  /**
    A colour edit changes only that colour's value: its name, the other colours and every other
    setting are kept.
   */
  lemma ColorEditChangesOnlyValue(t: Theme, k: ColorKey, v: string)
    ensures var r := Edited(t, ColorEdit(k, v));
      && r.colors.Get(k) == ThemeColor(t.colors.Get(k).name, v)
      && (forall k' :: k' != k ==> r.colors.Get(k') == t.colors.Get(k'))
      && r.typography == t.typography && r.spacing == t.spacing
  {
  }

  /** A typography or spacing edit changes exactly its one field. */
  lemma FieldEditChangesOnlyField(t: Theme, e: Edit)
    requires !e.ColorEdit?
    ensures var r := Edited(t, e);
      && r.colors == t.colors
      && (e.FontFamilyEdit? ==> r.typography == t.typography.(fontFamily := e.fontFamily) && r.spacing == t.spacing)
      && (e.BaseFontSizeEdit? ==> r.typography == t.typography.(baseFontSize := e.baseFontSize) && r.spacing == t.spacing)
      && (e.HeadingScaleEdit? ==> r.typography == t.typography.(headingScale := e.headingScale) && r.spacing == t.spacing)
      && (e.SpacingBaseEdit? ==> r.spacing == t.spacing.(base := e.base) && r.typography == t.typography)
  {
  }

  /** The copy a built-in theme forks into: the edited settings under `customThemeName`. */
  function ForkSettings(t: Theme, e: Edit): (r: ThemeSettings)
    ensures r.name == CustomThemeName
    ensures r.colors == Edited(t, e).colors && r.typography == Edited(t, e).typography
    ensures r.spacing == Edited(t, e).spacing && r.borderRadius == t.borderRadius
  {
    SettingsOf(Edited(t, e)).(name := CustomThemeName)
  }

  /** Patching every custom theme with the current id leaves the lookup on the patched current theme. */
  lemma FindAfterUpdate(themes: seq<Theme>, id: Id, p: ThemePatch)
    requires |themes| > 0 && HasTheme(themes, id) && FindTheme(themes, id).isCustom
    ensures FindTheme(UpdateThemes(themes, id, p), id) == PatchTheme(FindTheme(themes, id), p)
  {
    var r := UpdateThemes(themes, id, p);
    SeqOps.FindIndexAgrees(themes, r, HasId(id));
  }

  /**
    `handle*Change(value)`: a built-in current theme forks a custom copy carrying the edit,
    which becomes current, and itself stays as it was; a custom current theme is edited in place.
   */
  method HandleChange(reg: ThemeRegistry, e: Edit, freshId: Id)
    requires reg.Valid()
    modifies reg`themes, reg`currentThemeId
    ensures reg.Valid()
    ensures reg.themes[..3] == DefaultThemes()
    ensures !old(reg.CurrentTheme()).isCustom ==>
      && reg.themes == old(reg.themes) + [CustomTheme(ForkSettings(old(reg.CurrentTheme()), e), freshId)]
      && reg.currentThemeId == freshId
    ensures old(reg.CurrentTheme()).isCustom ==>
      && reg.themes == UpdateThemes(old(reg.themes), old(reg.currentThemeId), EditPatch(old(reg.CurrentTheme()), e))
      && reg.currentThemeId == old(reg.currentThemeId)
      && reg.CurrentTheme() == Edited(old(reg.CurrentTheme()), e)
  {
    var current := reg.CurrentTheme();
    if !current.isCustom {
      reg.AddCustomTheme(ForkSettings(current, e), freshId);
    } else {
      FindAfterUpdate(reg.themes, current.id, EditPatch(current, e));
      reg.UpdateTheme(current.id, EditPatch(current, e));
    }
  }

  /** `handleDuplicateTheme()`: a custom copy of the current theme named "<name> Copy", made current. */
  method HandleDuplicateTheme(reg: ThemeRegistry, freshId: Id)
    requires reg.Valid()
    modifies reg`themes, reg`currentThemeId
    ensures reg.Valid()
    ensures var t := old(reg.CurrentTheme());
      reg.themes == old(reg.themes) + [CustomTheme(SettingsOf(t).(name := t.name + " Copy"), freshId)]
    ensures reg.currentThemeId == freshId
  {
    var current := reg.CurrentTheme();
    reg.AddCustomTheme(SettingsOf(current).(name := current.name + " Copy"), freshId);
  }

  /** `handleCreateNew()`: a custom copy of the first theme (the built-in 'default') under `customThemeName`. */
  method HandleCreateNew(reg: ThemeRegistry, freshId: Id)
    requires reg.Valid()
    modifies reg`themes, reg`currentThemeId
    ensures reg.Valid()
    ensures reg.themes == old(reg.themes) + [CustomTheme(SettingsOf(DefaultThemes()[0]).(name := CustomThemeName), freshId)]
    ensures reg.currentThemeId == freshId
  {
    assert reg.themes[0] == reg.themes[..3][0];
    reg.AddCustomTheme(SettingsOf(reg.themes[0]).(name := CustomThemeName), freshId);
  }

  /** The delete button is shown only for a custom current theme. */
  method HandleDelete(reg: ThemeRegistry)
    requires reg.Valid()
    modifies reg`themes, reg`currentThemeId
    ensures reg.Valid()
    ensures !old(reg.CurrentTheme()).isCustom ==> reg.themes == old(reg.themes) && reg.currentThemeId == old(reg.currentThemeId)
    ensures old(reg.CurrentTheme()).isCustom ==>
      reg.themes == DeleteThemes(old(reg.themes), old(reg.currentThemeId)) && reg.currentThemeId == "default"
  {
    var current := reg.CurrentTheme();
    if current.isCustom {
      reg.DeleteTheme(current.id);
    }
  }

  /** The name field is shown only for a custom current theme; typing renames it in place. */
  method HandleNameChange(reg: ThemeRegistry, name: string)
    requires reg.Valid()
    modifies reg`themes
    ensures reg.Valid()
    ensures !old(reg.CurrentTheme()).isCustom ==> reg.themes == old(reg.themes)
    ensures old(reg.CurrentTheme()).isCustom ==>
      reg.themes == UpdateThemes(old(reg.themes), old(reg.currentThemeId), EmptyThemePatch.(name := Some(name)))
      && reg.CurrentTheme().name == name
    ensures reg.currentThemeId == old(reg.currentThemeId)
  {
    var current := reg.CurrentTheme();
    if current.isCustom {
      FindAfterUpdate(reg.themes, current.id, EmptyThemePatch.(name := Some(name)));
      reg.UpdateTheme(current.id, EmptyThemePatch.(name := Some(name)));
    }
  }
}
