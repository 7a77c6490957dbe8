/**
 * `ZeusPlugin`: an extension module's identity, read from its `ZeusLoad`
 * annotation, and its enable/disable lifecycle.
 */
module Plugins {
  import opened Wrappers
  import JavaStrings

  /** The `ZeusLoad` annotation's elements. */
  datatype Descriptor = Descriptor(name: string, version: string, description: string,
                                   dependencies: Option<string>)

  /** A file path, as its list of components (`new File(parent, child)` appends one). */
  type Path = seq<string>

  /** The name of the configuration file inside a plugin's data folder. */
  const CONFIG_FILE_NAME := "config.yml"

  /** A call of a plugin's own lifecycle hook, with the state it observes. */
  datatype HookCall =
    | OnEnable(runningSeen: bool, dataFolderSeen: Option<Path>, configSeen: Option<Path>)
    | OnDisable(runningSeen: bool)

  /** A Java call that returns a value or throws `NullPointerException`. */
  datatype Outcome<T> = Returned(value: T) | NullPointer

  /** The argument of `equals(Object o)`: some other object, or a plugin. */
  datatype JavaObject = NotAPlugin | APlugin(plugin: ZeusPlugin)

  class ZeusPlugin {
    /** The class's `ZeusLoad` annotation, if it carries one. */
    const annotation: Option<Descriptor>
    var running: bool
    var dataFolder: Option<Path>
    /** The file the plugin's configuration is loaded from. */
    var configFile: Option<Path>
    /** The calls of `onEnable` and `onDisable` so far, oldest first. */
    var hooks: seq<HookCall>

    constructor (annotation: Option<Descriptor>)
      ensures this.annotation == annotation
      ensures !running && dataFolder.None? && configFile.None? && hooks == []
    {
      this.annotation := annotation;
      running := false;
      dataFolder := None;
      configFile := None;
      hooks := [];
    }

    /** `getName()`: null without an annotation. */
    function Name(): (r: Option<string>)
      ensures r.None? <==> annotation.None?
      ensures r.Some? ==> r.value == annotation.value.name
    {
      match annotation
      case None => None
      case Some(d) => Some(d.name)
    }

    /** `getVersion()`: null without an annotation. */
    function Version(): (r: Option<string>)
      ensures r.None? <==> annotation.None?
      ensures r.Some? ==> r.value == annotation.value.version
    {
      match annotation
      case None => None
      case Some(d) => Some(d.version)
    }

    /** `getDescription()`: null without an annotation. */
    function Description(): (r: Option<string>)
      ensures r.None? <==> annotation.None?
      ensures r.Some? ==> r.value == annotation.value.description
    {
      match annotation
      case None => None
      case Some(d) => Some(d.description)
    }

    /**
     * `getDependencies()`: the declared names, space-separated in the
     * annotation; empty without an annotation or for a null or empty string.
     */
    function Dependencies(): (r: seq<string>)
      ensures (annotation.None? || annotation.value.dependencies.None? ||
               annotation.value.dependencies.value == "") ==> r == []
      ensures forall i :: 0 <= i < |r| ==> ' ' !in r[i]
      ensures annotation.Some? && annotation.value.dependencies.Some? ==>
                JavaStrings.Join(r) == JavaStrings.StripTrailingSpaces(annotation.value.dependencies.value)
      ensures r == [] || r[|r| - 1] != ""
    {
      match annotation
      case None => []
      case Some(d) =>
        match d.dependencies
        case None => []
        case Some(unsplit) =>
          if unsplit == "" then [] else JavaStrings.Split(unsplit)
    }

    /**
     * `enable(logger, pluginsFolder)`: marks the plugin running, points it at
     * its data folder and configuration file, then calls `onEnable`. Without
     * a name `new File(pluginsFolder, null)` throws, after `running` is set.
     */
    method Enable(pluginsFolder: Path) returns (ok: bool)
      modifies this
      ensures running
      ensures ok <==> Name().Some?
      ensures ok ==> dataFolder == Some(pluginsFolder + [Name().value]) &&
                     configFile == Some(pluginsFolder + [Name().value, CONFIG_FILE_NAME]) &&
                     hooks == old(hooks) + [OnEnable(true, dataFolder, configFile)]
      ensures !ok ==> dataFolder == old(dataFolder) && configFile == old(configFile) && hooks == old(hooks)
    {
      running := true;
      var name := Name();
      if name.None? {
        return false;
      }
      dataFolder := Some(pluginsFolder + [name.value]);
      configFile := Some(dataFolder.value + [CONFIG_FILE_NAME]);
      assert configFile.value == pluginsFolder + [name.value, CONFIG_FILE_NAME];
      hooks := hooks + [OnEnable(running, dataFolder, configFile)];
      ok := true;
    }

    /** `disable()`: calls `onDisable`, then marks the plugin stopped. */
    method Disable()
      modifies this
      ensures !running
      ensures hooks == old(hooks) + [OnDisable(old(running))]
      ensures dataFolder == old(dataFolder) && configFile == old(configFile)
    {
      hooks := hooks + [OnDisable(running)];
      running := false;
    }

    /** `hashCode()`: the name's hash; throws without a name. */
    function HashCode(): (r: Outcome<int>)
      ensures r.NullPointer? <==> Name().None?
      ensures r.Returned? ==> r.value == JavaStrings.HashCode(Name().value)
    {
      match Name()
      case None => NullPointer
      case Some(n) => Returned(JavaStrings.HashCode(n))
    }

    /**
     * `equals(o)`: false for a non-plugin; otherwise whether the names are
     * equal, where `o`'s name is the receiver of `String.equals` and so
     * throws when null.
     */
    function Equals(o: JavaObject): (r: Outcome<bool>)
      ensures o.NotAPlugin? ==> r == Returned(false)
      ensures o.APlugin? ==> (r.NullPointer? <==> o.plugin.Name().None?)
      ensures r == Returned(true) <==> o.APlugin? && o.plugin.Name().Some? && o.plugin.Name() == Name()
    {
      match o
      case NotAPlugin => Returned(false)
      case APlugin(p) =>
        match p.Name()
        case None => NullPointer
        case Some(n) => Returned(Name() == Some(n))
    }
  }

  /** Plugins with names are equal exactly when their names are, and then hash alike. */
  lemma EqualityByName(a: ZeusPlugin, b: ZeusPlugin)
    requires a.Name().Some? && b.Name().Some?
    ensures a.Equals(APlugin(b)) == Returned(a.Name() == b.Name())
    ensures a.Equals(APlugin(b)) == b.Equals(APlugin(a))
    ensures a.Equals(APlugin(a)) == Returned(true)
    ensures a.Equals(APlugin(b)) == Returned(true) ==> a.HashCode() == b.HashCode()
  {
  }

  /** After enable then disable the plugin is stopped, and each hook ran once in that order. */
  method EnableThenDisable(plugin: ZeusPlugin, pluginsFolder: Path)
    requires plugin.Name().Some?
    modifies plugin
    ensures !plugin.running
    ensures plugin.hooks == old(plugin.hooks) +
              [OnEnable(true, Some(pluginsFolder + [plugin.Name().value]),
                        Some(pluginsFolder + [plugin.Name().value, CONFIG_FILE_NAME])),
               OnDisable(true)]
  {
    var ok := plugin.Enable(pluginsFolder);
    assert plugin.running;
    plugin.Disable();
  }
}
