/** The provisioning backend for Tilera boards: the per-instance variables,
    the network description injected into the image, and the file names
    under the TFTP root that the bootloader and console steps use. Copying,
    mounting and running commands are not performed here; the commands are
    described by their argument lists. */
module Tilera {
  import opened Wrappers
  import opened BaremetalTypes
  import Strings
  import Decimal

  /** The exceptions the modelled code lets through: indexing an empty
      address list, and adding None to a string. */
  datatype TileraError = IndexError | TypeError

  // ---------------------------------------------------------------------
  // define_vars

  /** The dictionary `define_vars` returns; the network and block-device
      descriptions are carried through untouched, whatever they are. */
  datatype Vars<N, B> = Vars(imageRoot: string, tftpRoot: string, networkInfo: N, blockDeviceInfo: B)

  /** `define_vars`: the image root is the instance's directory under
      `instances_path`. */
  function DefineVars<N, B>(instancesPath: string, tftpRoot: string, inst: Instance,
                           networkInfo: N, blockDeviceInfo: B): (v: Vars<N, B>)
    ensures v.imageRoot == Strings.PathJoin(instancesPath, inst.name)
    ensures v.tftpRoot == tftpRoot
    ensures v.networkInfo == networkInfo && v.blockDeviceInfo == blockDeviceInfo
  {
    Vars(Strings.PathJoin(instancesPath, inst.name), tftpRoot, networkInfo, blockDeviceInfo)
  }

  /** Instances with different relative names get different image roots. */
  lemma ImageRootsDistinct(instancesPath: string, a: string, b: string)
    requires !(|a| > 0 && a[0] == '/') && !(|b| > 0 && b[0] == '/')
    requires Strings.PathJoin(instancesPath, a) == Strings.PathJoin(instancesPath, b)
    ensures a == b
  {
    var p := Strings.PathJoin(instancesPath, a);
    var prefix := if instancesPath == "" || instancesPath[|instancesPath| - 1] == '/' then instancesPath
                  else instancesPath + "/";
    assert p == prefix + a && p == prefix + b;
    assert a == p[|prefix|..] == b;
  }

  // ---------------------------------------------------------------------
  // The network description of _inject_to_image

  /** One element of `nets`. */
  datatype NetInfo = NetInfo(
    name: string,
    address: string,
    netmask: string,
    gateway: Option<string>,
    broadcast: Option<string>,
    dns: string,
    addressV6: Option<string>,
    gatewayV6: Option<string>,
    netmaskV6: Option<string>,
    hwaddress: string)

  /** `'eth%d' % i`. */
  function IfaceName(i: int): string
  {
    "eth" + Decimal.IntToString(i)
  }

  /** The entry for a mapping can be built: its first IPv4 address, and with
      IPv6 on its first IPv6 address, exist. */
  predicate EntryReadable(m: Mapping, useIpv6: bool)
  {
    |m.ips| > 0 && (useIpv6 ==> |m.ip6s| > 0)
  }

  /** `e` is the `nets` entry of interface `i` with mapping `m`: the name
      `eth<i>`, the first IPv4 address and netmask, the gateway, broadcast
      and MAC address of the mapping, the DNS servers separated by single
      spaces, and the IPv6 fields taken from the mapping exactly when IPv6 is
      on. */
  predicate IsNetEntry(e: NetInfo, i: nat, m: Mapping, useIpv6: bool)
  {
    && EntryReadable(m, useIpv6)
    && e.name == IfaceName(i)
    && e.address == m.ips[0].ip && e.netmask == m.ips[0].netmask
    && e.gateway == m.gateway && e.broadcast == m.broadcast
    && e.dns == Strings.Join(" ", m.dns)
    && e.hwaddress == m.mac
    && (useIpv6 ==> && e.addressV6 == Some(m.ip6s[0].ip)
                    && e.netmaskV6 == Some(m.ip6s[0].netmask)
                    && e.gatewayV6 == m.gatewayV6)
    && (!useIpv6 ==> e.addressV6.None? && e.netmaskV6.None? && e.gatewayV6.None?)
  }

  /** `nets` has one entry per element of `networkInfo`, in order. */
  predicate IsNets(nets: seq<NetInfo>, networkInfo: seq<NetworkEntry>, useIpv6: bool)
  {
    && |nets| == |networkInfo|
    && forall i :: 0 <= i < |nets| ==> IsNetEntry(nets[i], i, networkInfo[i].mapping, useIpv6)
  }

  /** The `nets` loop of `_inject_to_image`. Indexing the address list of a
      mapping that has none raises IndexError. */
  method BuildNets(networkInfo: seq<NetworkEntry>, useIpv6: bool) returns (r: Result<seq<NetInfo>, TileraError>)
    ensures r.Failure? <==> exists i :: 0 <= i < |networkInfo| && !EntryReadable(networkInfo[i].mapping, useIpv6)
    ensures r.Failure? ==> r.error == IndexError
    ensures r.Success? ==> IsNets(r.value, networkInfo, useIpv6)
  {
    var nets: seq<NetInfo> := [];
    for i := 0 to |networkInfo|
      invariant |nets| == i
      invariant forall k :: 0 <= k < i ==> IsNetEntry(nets[k], k, networkInfo[k].mapping, useIpv6)
    {
      var m := networkInfo[i].mapping;
      if |m.ips| == 0 {
        return Failure(IndexError);
      }
      var address := m.ips[0].ip;
      var netmask := m.ips[0].netmask;
      var addressV6: Option<string> := None;
      var gatewayV6: Option<string> := None;
      var netmaskV6: Option<string> := None;
      if useIpv6 {
        if |m.ip6s| == 0 {
          return Failure(IndexError);
        }
        addressV6 := Some(m.ip6s[0].ip);
        netmaskV6 := Some(m.ip6s[0].netmask);
        gatewayV6 := m.gatewayV6;
      }
      var entry := NetInfo(IfaceName(i), address, netmask, m.gateway, m.broadcast,
                           Strings.Join(" ", m.dns), addressV6, gatewayV6, netmaskV6, m.mac);
      nets := nets + [entry];
    }
    return Success(nets);
  }

  /** The DHCP stanza appended for the boot interface `eth<n>`. */
  function BootStanza(n: nat): string
  {
    "\n" + ("auto " + IfaceName(n) + "\n") + ("iface " + IfaceName(n) + " inet dhcp\n")
  }

  /** Different interface numbers give different interface names. */
  lemma IfaceNamesDistinct(i: int, j: int)
    requires i != j
    ensures IfaceName(i) != IfaceName(j)
  {
    if IfaceName(i) == IfaceName(j) {
      assert Decimal.IntToString(i) == IfaceName(i)[3..];
      assert Decimal.IntToString(j) == IfaceName(j)[3..];
      Decimal.IntToStringInjective(i, j);
    }
  }

  /** The entries have pairwise different names, and the boot interface
      named after the number of entries is none of them. */
  lemma NetNamesFresh(nets: seq<NetInfo>, networkInfo: seq<NetworkEntry>, useIpv6: bool)
    requires IsNets(nets, networkInfo, useIpv6)
    ensures forall i, j :: 0 <= i < j < |nets| ==> nets[i].name != nets[j].name
    ensures forall i :: 0 <= i < |nets| ==> nets[i].name != IfaceName(|networkInfo|)
  {
    forall i, j | 0 <= i < j < |nets|
      ensures nets[i].name != nets[j].name
    {
      IfaceNamesDistinct(i, j);
    }
    forall i | 0 <= i < |nets|
      ensures nets[i].name != IfaceName(|networkInfo|)
    {
      IfaceNamesDistinct(i, |networkInfo|);
    }
  }

  // ---------------------------------------------------------------------
  // _inject_to_image

  /** The partition `inject_data` is told to use: the first, for an image
      booted without a kernel of its own. */
  function TargetPartition(kernelId: Option<string>): (p: Option<string>)
    ensures p == Some("1") <==> !TruthyString(kernelId)
    ensures p != Some("1") ==> p.None?
  {
    if !TruthyString(kernelId) then Some("1") else None
  }

  /** The SSH key to inject: the instance's key data when it is non-empty. */
  function InjectedKey(keyData: Option<string>): (k: Option<string>)
    ensures k.Some? <==> TruthyString(keyData)
    ensures k.Some? ==> k == keyData
  {
    if TruthyString(keyData) then keyData else None
  }

  /** The arguments of the `inject_data` call. */
  datatype Injection = Injection(
    key: Option<string>,
    net: string,
    metadata: seq<MetadataItem>,
    adminPassword: Option<string>,
    partition: Option<string>)

  /** `_inject_to_image`. `template` is what the network template renders
      for a list of entries and the IPv6 switch. A raising `inject_data` is
      logged and swallowed, so it does not change the result. The result is
      the `inject_data` call when one is made, None when the code decides
      there is nothing to inject. */
  method InjectToImage(inst: Instance, networkInfo: seq<NetworkEntry>, useIpv6: bool,
                       template: (seq<NetInfo>, bool) -> string,
                       adminPassword: Option<string>)
    returns (r: Result<Option<Injection>, TileraError>, nets: seq<NetInfo>)
    ensures r.Failure? <==> exists i :: 0 <= i < |networkInfo| && !EntryReadable(networkInfo[i].mapping, useIpv6)
    ensures r.Failure? ==> r.error == IndexError
    ensures r.Success? ==> r.value.Some? && IsNets(nets, networkInfo, useIpv6)
    ensures r.Success? && r.value.Some? ==> var call := r.value.value;
      && call.key == InjectedKey(inst.keyData)
      && call.net == template(nets, useIpv6) + BootStanza(|networkInfo|)
      && call.metadata == inst.metadata
      && call.adminPassword.None?
      && call.partition == TargetPartition(inst.kernelId)
  {
    var targetPartition: Option<string> := None;
    if !TruthyString(inst.kernelId) {
      targetPartition := Some("1");
    }
    var key := InjectedKey(inst.keyData);
    var built := BuildNets(networkInfo, useIpv6);
    if built.Failure? {
      return Failure(built.error), [];
    }
    nets := built.value;
    var bootif := IfaceName(|networkInfo|);
    var net := template(nets, useIpv6);
    net := net + "\n";
    net := net + ("auto " + bootif + "\n");
    net := net + ("iface " + bootif + " inet dhcp\n");
    AppendThree(template(nets, useIpv6), "\n", "auto " + bootif + "\n", "iface " + bootif + " inet dhcp\n");
    var password: Option<string> := None;
    var metadata := inst.metadata;
    if key.Some? || net != "" || metadata != [] || TruthyString(password) {
      return Success(Some(Injection(key, net, metadata, password, targetPartition))), nets;
    }
    return Success(None), nets;
  }

  lemma AppendThree(t: string, a: string, b: string, c: string)
    ensures ((t + a) + b) + c == t + ((a + b) + c)
  {
  }

  // ---------------------------------------------------------------------
  // File names under the TFTP root

  /** The image file of node `id`. */
  function DiskPath(tftpRoot: string, id: int): string
  {
    tftpRoot + "/disk_" + Decimal.IntToString(id)
  }

  /** The mount point of node `id`'s image. */
  function FsPath(tftpRoot: string, id: int): string
  {
    tftpRoot + "/fs_" + Decimal.IntToString(id)
  }

  /** The kernel message log of node `id`. */
  function LogPath(tftpRoot: string, id: int): string
  {
    tftpRoot + "/log_" + Decimal.IntToString(id)
  }

  /** The image file, the mount point and the log are never the same file,
      for any two nodes. */
  lemma NodePathsDistinct(tftpRoot: string, a: int, b: int)
    ensures DiskPath(tftpRoot, a) != FsPath(tftpRoot, b)
    ensures DiskPath(tftpRoot, a) != LogPath(tftpRoot, b)
    ensures FsPath(tftpRoot, a) != LogPath(tftpRoot, b)
  {
    var k := |tftpRoot| + 1;
    assert DiskPath(tftpRoot, a)[k] == 'd';
    assert FsPath(tftpRoot, b)[k] == 'f' && FsPath(tftpRoot, a)[k] == 'f';
    assert LogPath(tftpRoot, b)[k] == 'l';
  }

  /** Each node has its own image file, mount point and log. */
  lemma NodePathsInjective(tftpRoot: string, a: int, b: int)
    requires a != b
    ensures DiskPath(tftpRoot, a) != DiskPath(tftpRoot, b)
    ensures FsPath(tftpRoot, a) != FsPath(tftpRoot, b)
    ensures LogPath(tftpRoot, a) != LogPath(tftpRoot, b)
  {
    var da := Decimal.IntToString(a);
    var db := Decimal.IntToString(b);
    if da == db {
      Decimal.IntToStringInjective(a, b);
    }
    SuffixDiffers(tftpRoot + "/disk_", da, db);
    SuffixDiffers(tftpRoot + "/fs_", da, db);
    SuffixDiffers(tftpRoot + "/log_", da, db);
  }

  lemma SuffixDiffers(p: string, x: string, y: string)
    requires x != y
    ensures p + x != p + y
  {
    assert (p + x)[|p|..] == x && (p + y)[|p|..] == y;
  }

  // ---------------------------------------------------------------------
  // The commands of the bootloader and console steps

  /** A command run through `utils.execute`, or a shell line started with
      `subprocess.Popen`. */
  datatype Command = Exec(args: seq<string>) | Shell(line: string)

  /** `activate_bootloader`: move the fetched image to the node's image file
      and loop-mount it on the node's mount point. */
  function ActivateBootloaderCommands<N, B>(v: Vars<N, B>, id: int): seq<Command>
  {
    [Exec(["mv", Strings.PathJoin(v.imageRoot, "disk"), DiskPath(v.tftpRoot, id)]),
     Exec(["mount", "-o", "loop", DiskPath(v.tftpRoot, id), FsPath(v.tftpRoot, id)])]
  }

  /** `deactivate_bootloader`: restart the mount daemon, then unmount and
      remove the node's image file. The unmount and the removal share one
      `try`: when the unmount raises (`umountRaises`), the removal is not
      issued, and the exception is logged and ignored. */
  function DeactivateBootloaderCommands<N, B>(v: Vars<N, B>, id: int, umountRaises: bool): seq<Command>
  {
    [Exec(["/usr/sbin/rpc.mountd"]),
     Exec(["umount", "-f", DiskPath(v.tftpRoot, id)])]
    + (if umountRaises then [] else [Exec(["rm", "-f", DiskPath(v.tftpRoot, id)])])
  }

  /** Deactivation unmounts the image file that activation moved the image
      to and mounted, under the same TFTP root, and removes that same file
      unless the unmount raised. */
  lemma DeactivateUndoesActivate<N, B, N', B'>(v: Vars<N, B>, w: Vars<N', B'>, id: int, umountRaises: bool)
    requires v.tftpRoot == w.tftpRoot
    ensures var act := ActivateBootloaderCommands(v, id);
      var deact := DeactivateBootloaderCommands(w, id, umountRaises);
      && act[0].args[2] == act[1].args[3] == deact[1].args[2]
      && (|deact| == 3 <==> !umountRaises)
      && (!umountRaises ==> deact[2] == Exec(["rm", "-f", act[0].args[2]]))
      && act[1].args[4] == FsPath(v.tftpRoot, id)
      && act[1].args[3] != act[1].args[4]
  {
    NodePathsDistinct(v.tftpRoot, id, id);
  }

  /** `get_console_output`: dump the node's kernel messages to its log file
      under the TFTP root, then copy it to `console.log` in the instance's
      directory. Adding the node's missing PM address to the command line
      raises TypeError. */
  function ConsoleOutputCommands(tileMonitor: string, instancesPath: string, tftpRoot: string,
                                 nodeId: int, node: Node, inst: Instance): (r: Result<seq<Command>, TileraError>)
    ensures r.Failure? <==> node.pmAddress.None?
    ensures r.Failure? ==> r.error == TypeError
    ensures r.Success? ==> r.value == [
      Shell(tileMonitor + " --resume --net " + node.pmAddress.value + " -- dmesg > " + LogPath(tftpRoot, nodeId)),
      Exec(["cp", LogPath(tftpRoot, nodeId), Strings.PathJoin(Strings.PathJoin(instancesPath, inst.name), "console.log")])]
  {
    var v: Vars<Option<seq<NetworkEntry>>, Option<seq<Volume>>> := DefineVars(instancesPath, tftpRoot, inst, None, None);
    var consoleLog := Strings.PathJoin(Strings.PathJoin(instancesPath, inst.name), "console.log");
    var logPath := LogPath(v.tftpRoot, nodeId);
    match node.pmAddress
    case None => Failure(TypeError)
    case Some(ip) =>
      Success([Shell(tileMonitor + " --resume --net " + ip + " -- dmesg > " + logPath),
               Exec(["cp", logPath, consoleLog])])
  }
}
