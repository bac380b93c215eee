/** The desktop theme switch `switchLightThemeGNome` of
    include/SunrisetWorker/SunrisetWorker.hpp: two `gsettings set` calls on the
    schema org.gnome.desktop.interface. */
module Theme {

  /** One `gsettings set org.gnome.desktop.interface <key> '<value>'` call. */
  datatype GSetting = GSetting(key: string, value: string)

  /** The calls made by `switchLightThemeGNome(lightTheme)`, in order. */
  function ThemeCommands(lightTheme: bool): (r: seq<GSetting>)
    ensures |r| == 2 && r[0].key == "color-scheme" && r[1].key == "gtk-theme"
  {
    if lightTheme then [GSetting("color-scheme", "default"), GSetting("gtk-theme", "Adwaita")]
    else [GSetting("color-scheme", "prefer-dark"), GSetting("gtk-theme", "Adwaita-dark")]
  }

  /** The two themes never issue the same calls, so the calls tell which theme
      was chosen. */
  lemma ThemeCommandsDistinguish(a: bool, b: bool)
    requires ThemeCommands(a) == ThemeCommands(b)
    ensures a == b
  {
  }
}
