// mosquitto.conf (src/lib/mosquitto-conf.js): the line parser with its current listener and
// repeated keys, the canonical printer, and the round trip between them.

module MosquittoConf {
  import opened Text

  // ---------------------------------------------------------------------------
  // Data model
  // ---------------------------------------------------------------------------

  /** What parseInt gives. */
  datatype Number = NaN | Int(n: int)

  /** The tls part of a listener: the file and version keys, and three flags. */
  datatype Tls = Tls(texts: map<Key, string>, requireCertificate: Option<bool>,
                     identityAsUsername: Option<bool>, subjectAsUsername: Option<bool>)

  datatype Listener = Listener(port: Number, bindAddress: string, protocol: string,
                               mountPoint: Option<string>, maxConnections: Option<Number>, maxQos: Option<Number>,
                               tls: Tls, allowAnonymous: Option<bool>,
                               passwordFile: Option<string>, aclFile: Option<string>)

  /** A managed key holds one value, or several in the order they were read. */
  datatype Conf = Conf(managed: map<Key, seq<string>>, listeners: seq<Listener>, passthrough: seq<string>)

  /** The key words of the file that she treats specially; any other word is Other. */
  datatype Key =
    | PerListenerSettings
    | AllowAnonymous
    | Persistence
    | PersistenceLocation
    | MaxConnections
    | MaxInflightMessages
    | MaxQueuedMessages
    | MaxPacketSize
    | MessageSizeLimit
    | MaxKeepalive
    | PersistentClientExpiration
    | RetainAvailable
    | SetTcpNodelay
    | ConnectionMessages
    | SysInterval
    | LogDest
    | LogType
    | Plugin
    | PluginOptConfigFile
    | IncludeDir
    | PluginOptDynsecConfigFile
    | ListenerKey
    | Protocol
    | SocketDomain
    | MountPoint
    | MaxQos
    | CertFile
    | KeyFile
    | CaFile
    | CaPath
    | CrlFile
    | RequireCertificate
    | UseIdentityAsUsername
    | UseSubjectAsUsername
    | TlsVersion
    | WebsocketsLogLevel
    | PasswordFile
    | AclFile
    | Other(word: string)

  function Name(key: Key): string {
    match key
    case PerListenerSettings => "per_listener_settings"
    case AllowAnonymous => "allow_anonymous"
    case Persistence => "persistence"
    case PersistenceLocation => "persistence_location"
    case MaxConnections => "max_connections"
    case MaxInflightMessages => "max_inflight_messages"
    case MaxQueuedMessages => "max_queued_messages"
    case MaxPacketSize => "max_packet_size"
    case MessageSizeLimit => "message_size_limit"
    case MaxKeepalive => "max_keepalive"
    case PersistentClientExpiration => "persistent_client_expiration"
    case RetainAvailable => "retain_available"
    case SetTcpNodelay => "set_tcp_nodelay"
    case ConnectionMessages => "connection_messages"
    case SysInterval => "sys_interval"
    case LogDest => "log_dest"
    case LogType => "log_type"
    case Plugin => "plugin"
    case PluginOptConfigFile => "plugin_opt_config_file"
    case IncludeDir => "include_dir"
    case PluginOptDynsecConfigFile => "plugin_opt_dynsec_config_file"
    case ListenerKey => "listener"
    case Protocol => "protocol"
    case SocketDomain => "socket_domain"
    case MountPoint => "mount_point"
    case MaxQos => "max_qos"
    case CertFile => "certfile"
    case KeyFile => "keyfile"
    case CaFile => "cafile"
    case CaPath => "capath"
    case CrlFile => "crlfile"
    case RequireCertificate => "require_certificate"
    case UseIdentityAsUsername => "use_identity_as_username"
    case UseSubjectAsUsername => "use_subject_as_username"
    case TlsVersion => "tls_version"
    case WebsocketsLogLevel => "websockets_log_level"
    case PasswordFile => "password_file"
    case AclFile => "acl_file"
    case Other(word) => word
  }

  /** The key a word names (looked up by its length first). */
  function KeyOf(word: string): Key {
    match |word|
    case 6 =>
      if word == "plugin" then Plugin
      else if word == "cafile" then CaFile
      else if word == "capath" then CaPath
      else Other(word)
    case 7 =>
      if word == "max_qos" then MaxQos
      else if word == "keyfile" then KeyFile
      else if word == "crlfile" then CrlFile
      else Other(word)
    case 8 =>
      if word == "log_dest" then LogDest
      else if word == "log_type" then LogType
      else if word == "listener" then ListenerKey
      else if word == "protocol" then Protocol
      else if word == "certfile" then CertFile
      else if word == "acl_file" then AclFile
      else Other(word)
    case 11 =>
      if word == "persistence" then Persistence
      else if word == "include_dir" then IncludeDir
      else if word == "mount_point" then MountPoint
      else if word == "tls_version" then TlsVersion
      else Other(word)
    case 12 => if word == "sys_interval" then SysInterval else Other(word)
    case 13 =>
      if word == "max_keepalive" then MaxKeepalive
      else if word == "socket_domain" then SocketDomain
      else if word == "password_file" then PasswordFile
      else Other(word)
    case 15 =>
      if word == "allow_anonymous" then AllowAnonymous
      else if word == "max_connections" then MaxConnections
      else if word == "max_packet_size" then MaxPacketSize
      else if word == "set_tcp_nodelay" then SetTcpNodelay
      else Other(word)
    case 16 => if word == "retain_available" then RetainAvailable else Other(word)
    case 18 => if word == "message_size_limit" then MessageSizeLimit else Other(word)
    case 19 =>
      if word == "max_queued_messages" then MaxQueuedMessages
      else if word == "connection_messages" then ConnectionMessages
      else if word == "require_certificate" then RequireCertificate
      else Other(word)
    case 20 =>
      if word == "persistence_location" then PersistenceLocation
      else if word == "websockets_log_level" then WebsocketsLogLevel
      else Other(word)
    case 21 =>
      if word == "per_listener_settings" then PerListenerSettings
      else if word == "max_inflight_messages" then MaxInflightMessages
      else Other(word)
    case 22 => if word == "plugin_opt_config_file" then PluginOptConfigFile else Other(word)
    case 23 => if word == "use_subject_as_username" then UseSubjectAsUsername else Other(word)
    case 24 => if word == "use_identity_as_username" then UseIdentityAsUsername else Other(word)
    case 28 => if word == "persistent_client_expiration" then PersistentClientExpiration else Other(word)
    case 29 => if word == "plugin_opt_dynsec_config_file" then PluginOptDynsecConfigFile else Other(word)
    case _ => Other(word)
  }

  const SERVER_KEYS: seq<Key> := [PerListenerSettings, AllowAnonymous, Persistence, PersistenceLocation, MaxConnections]
  const LIMIT_KEYS: seq<Key> := [MaxInflightMessages, MaxQueuedMessages, MaxPacketSize, MessageSizeLimit, MaxKeepalive]
  const SESSION_KEYS: seq<Key> :=
    [PersistentClientExpiration, RetainAvailable, SetTcpNodelay, ConnectionMessages, SysInterval]
  const OUTPUT_KEYS: seq<Key> := [LogDest, LogType, Plugin, PluginOptConfigFile, IncludeDir]

  /** The managed keys in the order they are printed. */
  const KEY_ORDER: seq<Key> := (SERVER_KEYS + LIMIT_KEYS) + (SESSION_KEYS + OUTPUT_KEYS)

  predicate IsServerKey(key: Key) {
    key.PerListenerSettings? || key.AllowAnonymous? || key.Persistence? || key.PersistenceLocation? ||
    key.MaxConnections? || key.MaxInflightMessages? || key.MaxQueuedMessages? || key.MaxPacketSize? ||
    key.MessageSizeLimit? || key.MaxKeepalive?
  }

  predicate IsSessionKey(key: Key) {
    key.PersistentClientExpiration? || key.RetainAvailable? || key.SetTcpNodelay? || key.ConnectionMessages? ||
    key.SysInterval? || key.LogDest? || key.LogType? || key.Plugin? || key.PluginOptConfigFile? || key.IncludeDir?
  }

  /** The keys that have a place in that order. */
  predicate HasPlace(key: Key) { IsServerKey(key) || IsSessionKey(key) }

  /** An order that has every key with a place, and no other. */
  ghost predicate ManagedOrder(keys: seq<Key>) {
    (forall i :: 0 <= i < |keys| ==> HasPlace(keys[i])) && forall key :: HasPlace(key) ==> key in keys
  }

  /** The printing order has every managed key, and no other. */
  lemma OrderHasPlaces()
    ensures ManagedOrder(KEY_ORDER)
  {
  }

  predicate IsManaged(key: Key) { HasPlace(key) || key.PluginOptDynsecConfigFile? }

  /** The key written by earlier versions is normalised. */
  function ManagedKey(key: Key): Key { if key == PluginOptDynsecConfigFile then PluginOptConfigFile else key }

  predicate IsTlsText(key: Key) {
    key.CertFile? || key.KeyFile? || key.CaFile? || key.CaPath? || key.CrlFile? || key.TlsVersion?
  }

  predicate IsSubkey(key: Key) {
    key.Protocol? || key.SocketDomain? || key.MountPoint? || key.MaxConnections? || key.MaxQos? ||
    key.CertFile? || key.KeyFile? || key.CaFile? || key.CaPath? || key.CrlFile? || key.RequireCertificate? ||
    key.UseIdentityAsUsername? || key.UseSubjectAsUsername? || key.TlsVersion? || key.WebsocketsLogLevel? ||
    key.AllowAnonymous? || key.PasswordFile? || key.AclFile?
  }

  // ---------------------------------------------------------------------------
  // Reading one line
  // ---------------------------------------------------------------------------

  datatype LineKind = Plain | Keyed(key: Key, value: string)

  function FindSpace(s: string): Option<nat> {
    if s == "" then None
    else if s[0] == ' ' then Some(0)
    else match FindSpace(s[1..]) case None => None case Some(i) => Some(i + 1)
  }

  /** Blank lines, comments and lines without a space are plain; any other has a key and a value. */
  function Classify(line: string): LineKind {
    var trimmed := Trim(line);
    if trimmed == "" || trimmed[0] == '#' then Plain
    else
      match FindSpace(trimmed)
      case None => Plain
      case Some(i) => if i < |trimmed| then Keyed(KeyOf(Trim(trimmed[..i])), Trim(trimmed[i + 1..])) else Plain
  }

  /** The leading run of characters that are not white space. */
  function Word(s: string): string {
    if s == "" || IsSpace(s[0]) then "" else [s[0]] + Word(s[1..])
  }

  function AfterWord(s: string): string {
    if s == "" || IsSpace(s[0]) then s else AfterWord(s[1..])
  }

  function DigitPrefix(s: string): (r: string)
    ensures AllDigits(r)
  {
    if s == "" || !IsDigit(s[0]) then "" else [s[0]] + DigitPrefix(s[1..])
  }

  /** `parseInt(s, 10)` */
  function ParseInt(s: string): Number {
    var t := TrimStart(s);
    var negative := t != "" && t[0] == '-';
    var digits := DigitPrefix(if t != "" && (t[0] == '-' || t[0] == '+') then t[1..] else t);
    if digits == "" then NaN else Int(if negative then 0 - Value(digits) else Value(digits))
  }

  function NewListener(value: string): Listener {
    Listener(ParseInt(Word(value)), Word(TrimStart(AfterWord(value))), "mqtt", None, None, None,
             Tls(map[], None, None, None), None, None, None)
  }

  function SetText(l: Listener, key: Key, value: string): Listener {
    l.(tls := l.tls.(texts := l.tls.texts[key := value]))
  }

  /** A listener sub-key; those she does not keep leave the listener as it is. */
  function ApplyKey(l: Listener, key: Key, value: string): Listener {
    match key
    case Protocol => l.(protocol := value)
    case MountPoint => l.(mountPoint := Some(value))
    case MaxConnections => l.(maxConnections := Some(ParseInt(value)))
    case MaxQos => l.(maxQos := Some(ParseInt(value)))
    case CertFile => SetText(l, key, value)
    case KeyFile => SetText(l, key, value)
    case CaFile => SetText(l, key, value)
    case CaPath => SetText(l, key, value)
    case CrlFile => SetText(l, key, value)
    case TlsVersion => SetText(l, key, value)
    case RequireCertificate => l.(tls := l.tls.(requireCertificate := Some(value == "true")))
    case UseIdentityAsUsername => l.(tls := l.tls.(identityAsUsername := Some(value == "true")))
    case UseSubjectAsUsername => l.(tls := l.tls.(subjectAsUsername := Some(value == "true")))
    case AllowAnonymous => l.(allowAnonymous := Some(value == "true"))
    case PasswordFile => l.(passwordFile := Some(value))
    case AclFile => l.(aclFile := Some(value))
    case _ => l
  }

  // ---------------------------------------------------------------------------
  // The parser
  // ---------------------------------------------------------------------------

  /** `open`: the last listener is the current one. */
  datatype State = State(conf: Conf, open: bool)

  const START := State(Conf(map[], [], []), false)

  /** A repeated key collects its distinct values. */
  function AddManaged(managed: map<Key, seq<string>>, key: Key, value: string): map<Key, seq<string>> {
    if key !in managed then managed[key := [value]]
    else if value in managed[key] then managed
    else managed[key := managed[key] + [value]]
  }

  function ReadLine(s: State, line: string): State {
    var conf := s.conf;
    match Classify(line)
    case Plain => s.(conf := conf.(passthrough := conf.passthrough + [line]))
    case Keyed(key, value) =>
      if key == ListenerKey then
        State(conf.(listeners := conf.listeners + [NewListener(value)]), true)
      else if s.open && conf.listeners != [] && IsSubkey(key) then
        var n := |conf.listeners| - 1;
        s.(conf := conf.(listeners := conf.listeners[..n] + [ApplyKey(conf.listeners[n], key, value)]))
      else if IsManaged(key) then
        State(conf.(managed := AddManaged(conf.managed, ManagedKey(key), value)), false)
      else
        State(conf.(passthrough := conf.passthrough + [line]), false)
  }

  function ReadLines(s: State, lines: seq<string>): State
    decreases lines
  {
    if lines == [] then s else ReadLines(ReadLine(s, lines[0]), lines[1..])
  }

  function Parse(raw: string): Conf { ReadLines(START, Split(raw, '\n')).conf }

  method ParseText(raw: string) returns (conf: Conf)
    ensures conf == Parse(raw)
  {
    var lines := Split(raw, '\n');
    var managed: map<Key, seq<string>> := map[];
    var listeners: seq<Listener> := [];
    var passthrough: seq<string> := [];
    var open := false;
    assert lines[0..] == lines;
    for i := 0 to |lines|
      invariant open ==> listeners != []
      invariant ReadLines(State(Conf(managed, listeners, passthrough), open), lines[i..]) == ReadLines(START, lines)
    {
      assert lines[i..][1..] == lines[i + 1..];
      match Classify(lines[i]) {
        case Plain => passthrough := passthrough + [lines[i]];
        case Keyed(key, value) =>
          if key == ListenerKey {
            listeners := listeners + [NewListener(value)];
            open := true;
          } else if open && IsSubkey(key) {
            var n := |listeners| - 1;
            listeners := listeners[..n] + [ApplyKey(listeners[n], key, value)];
          } else if IsManaged(key) {
            var managedKey := if key == PluginOptDynsecConfigFile then PluginOptConfigFile else key;
            if managedKey in managed {
              if value !in managed[managedKey] {
                managed := managed[managedKey := managed[managedKey] + [value]];
              }
            } else {
              managed := managed[managedKey := [value]];
            }
            open := false;
          } else {
            passthrough := passthrough + [lines[i]];
            open := false;
          }
      }
    }
    conf := Conf(managed, listeners, passthrough);
  }

  // ---------------------------------------------------------------------------
  // The printer
  // ---------------------------------------------------------------------------

  function PrintNumber(n: Number): string {
    match n
    case NaN => "NaN"
    case Int(i) => if i < 0 then "-" + Dec(-i) else Dec(i)
  }

  function PrintBool(b: bool): string { if b then "true" else "false" }

  function Line(key: Key, value: string): string { Name(key) + " " + value }

  function LinesOf(key: Key, values: seq<string>): seq<string> {
    if values == [] then [] else [Line(key, values[0])] + LinesOf(key, values[1..])
  }

  /** Each value once, in order. */
  function Distinct(values: seq<string>): seq<string> {
    if values == [] then []
    else
      var rest := Distinct(values[..|values| - 1]);
      if values[|values| - 1] in values[..|values| - 1] then rest else rest + [values[|values| - 1]]
  }

  function ManagedLines(keys: seq<Key>, managed: map<Key, seq<string>>): seq<string> {
    if keys == [] then []
    else
      (if keys[0] in managed then LinesOf(keys[0], Distinct(managed[keys[0]])) else [])
      + ManagedLines(keys[1..], managed)
  }

  function OptText(v: Option<string>): Option<string> { if v.Some? && v.value != "" then v else None }

  function OptNumber(v: Option<Number>): Option<string> {
    if v.Some? then Some(PrintNumber(v.value)) else None
  }

  function OptFlag(v: Option<bool>): Option<string> { if v.Some? then Some(PrintBool(v.value)) else None }

  /** The default protocol is not printed. */
  function OptProtocol(protocol: string): Option<string> {
    if protocol != "" && protocol != "mqtt" then Some(protocol) else None
  }

  function OptIn(texts: map<Key, string>, key: Key): Option<string> {
    OptText(if key in texts then Some(texts[key]) else None)
  }

  const ADDRESS_KEYS: seq<Key> := [Protocol, MountPoint, MaxConnections, MaxQos]
  const TLS_KEYS: seq<Key> := [CertFile, KeyFile, CaFile, CaPath, CrlFile, TlsVersion]
  const ACCESS_KEYS: seq<Key> :=
    [RequireCertificate, UseIdentityAsUsername, UseSubjectAsUsername, AllowAnonymous, PasswordFile, AclFile]

  /** The keys of a listener block in the order they are printed. */
  const LISTENER_ORDER: seq<Key> := (ADDRESS_KEYS + TLS_KEYS) + ACCESS_KEYS

  /** What is printed behind a listener's key, if the key is printed at all. */
  function ValueOf(l: Listener, key: Key): Option<string> {
    match key
    case Protocol => OptProtocol(l.protocol)
    case MountPoint => OptText(l.mountPoint)
    case MaxConnections => OptNumber(l.maxConnections)
    case MaxQos => OptNumber(l.maxQos)
    case CertFile => OptIn(l.tls.texts, key)
    case KeyFile => OptIn(l.tls.texts, key)
    case CaFile => OptIn(l.tls.texts, key)
    case CaPath => OptIn(l.tls.texts, key)
    case CrlFile => OptIn(l.tls.texts, key)
    case TlsVersion => OptIn(l.tls.texts, key)
    case RequireCertificate => OptFlag(l.tls.requireCertificate)
    case UseIdentityAsUsername => OptFlag(l.tls.identityAsUsername)
    case UseSubjectAsUsername => OptFlag(l.tls.subjectAsUsername)
    case AllowAnonymous => OptFlag(l.allowAnonymous)
    case PasswordFile => OptText(l.passwordFile)
    case AclFile => OptText(l.aclFile)
    case _ => None
  }

  /** The lines below a listener's first one, as keys and values. */
  function Pairs(l: Listener, keys: seq<Key>): seq<(Key, string)>
    decreases keys
  {
    if keys == [] then []
    else (if ValueOf(l, keys[0]).Some? then [(keys[0], ValueOf(l, keys[0]).value)] else []) + Pairs(l, keys[1..])
  }

  function PairLines(pairs: seq<(Key, string)>): seq<string> {
    if pairs == [] then [] else [Line(pairs[0].0, pairs[0].1)] + PairLines(pairs[1..])
  }

  function Head(l: Listener): string {
    PrintNumber(l.port) + (if l.bindAddress != "" then " " + l.bindAddress else "")
  }

  function ListenerLines(l: Listener, order: seq<Key>): seq<string> {
    [Line(ListenerKey, Head(l))] + PairLines(Pairs(l, order)) + [""]
  }

  function AllListenerLines(ls: seq<Listener>, order: seq<Key>): seq<string>
    decreases ls
  {
    if ls == [] then [] else ListenerLines(ls[0], order) + AllListenerLines(ls[1..], order)
  }

  predicate Blank(line: string) { Trim(line) == "" }

  function DropBlanks(lines: seq<string>): seq<string> {
    if lines != [] && Blank(lines[0]) then DropBlanks(lines[1..]) else lines
  }

  /** Runs of blank lines become their first line. */
  function Collapse(prevBlank: bool, lines: seq<string>): seq<string>
    decreases lines
  {
    if lines == [] then []
    else if Blank(lines[0]) && prevBlank then Collapse(true, lines[1..])
    else [lines[0]] + Collapse(Blank(lines[0]), lines[1..])
  }

  function ManagedBlock(managed: map<Key, seq<string>>, order: seq<Key>): seq<string> {
    var lines := ManagedLines(order, managed);
    if lines == [] then [] else lines + [""]
  }

  /** The lines printed when managed and listener keys come in the given orders. */
  function PrintedLines(conf: Conf, order: seq<Key>, listenerOrder: seq<Key>): seq<string> {
    Collapse(false, ManagedBlock(conf.managed, order) + AllListenerLines(conf.listeners, listenerOrder)
                    + DropBlanks(conf.passthrough))
  }

  function Serialise(conf: Conf): string { Join(PrintedLines(conf, KEY_ORDER, LISTENER_ORDER), '\n') }

  /** A key's lines: every value once. */
  method PrintValues(key: Key, values: seq<string>) returns (lines: seq<string>)
    ensures lines == LinesOf(key, Distinct(values))
  {
    lines := [];
    var written: set<string> := {};
    assert values[..0] == [];
    for i := 0 to |values|
      invariant lines == LinesOf(key, Distinct(values[..i]))
      invariant forall v :: v in written <==> v in values[..i]
    {
      assert values[..i + 1][..i] == values[..i];
      if values[i] !in written {
        written := written + {values[i]};
        LinesOfAppend(key, Distinct(values[..i]), values[i]);
        lines := lines + [Line(key, values[i])];
      }
    }
    assert values[..|values|] == values;
  }

  lemma {:induction false} LinesOfAppend(key: Key, values: seq<string>, value: string)
    ensures LinesOf(key, values + [value]) == LinesOf(key, values) + [Line(key, value)]
  {
    if values == [] {
      assert [value][1..] == [];
    } else {
      LinesOfAppend(key, values[1..], value);
      assert (values + [value])[1..] == values[1..] + [value];
    }
  }

  method PrintManaged(managed: map<Key, seq<string>>, order: seq<Key>) returns (lines: seq<string>)
    ensures lines == ManagedLines(order, managed)
  {
    lines := [];
    assert order[0..] == order;
    var i := 0;
    while i < |order|
      invariant 0 <= i <= |order|
      invariant lines + ManagedLines(order[i..], managed) == ManagedLines(order, managed)
    {
      assert order[i..][1..] == order[i + 1..];
      if order[i] in managed {
        var own := PrintValues(order[i], managed[order[i]]);
        GroupLines(lines, own, ManagedLines(order[i + 1..], managed));
        lines := lines + own;
      } else {
        assert [] + ManagedLines(order[i + 1..], managed) == ManagedLines(order[i + 1..], managed);
      }
      i := i + 1;
    }
    assert lines + [] == lines;
  }

  /** A listener's lines below the first: the keys that have a value to print. */
  method PrintListener(l: Listener, order: seq<Key>) returns (lines: seq<string>)
    ensures lines == ListenerLines(l, order)
  {
    lines := [Line(ListenerKey, Head(l))];
    ghost var first := lines;
    assert order[0..] == order;
    for i := 0 to |order|
      invariant lines + PairLines(Pairs(l, order[i..])) == first + PairLines(Pairs(l, order))
    {
      assert order[i..][1..] == order[i + 1..];
      var value := ValueOf(l, order[i]);
      if value.Some? {
        PairLinesFirst((order[i], value.value), Pairs(l, order[i + 1..]));
        GroupLines(lines, [Line(order[i], value.value)], PairLines(Pairs(l, order[i + 1..])));
        lines := lines + [Line(order[i], value.value)];
      } else {
        assert [] + Pairs(l, order[i + 1..]) == Pairs(l, order[i + 1..]);
      }
    }
    assert lines + [] == lines;
    lines := lines + [""];
  }

  lemma PairLinesFirst(pair: (Key, string), rest: seq<(Key, string)>)
    ensures PairLines([pair] + rest) == [Line(pair.0, pair.1)] + PairLines(rest)
  {
  }

  method PrintListeners(listeners: seq<Listener>, order: seq<Key>) returns (lines: seq<string>)
    ensures lines == AllListenerLines(listeners, order)
  {
    lines := [];
    assert listeners[0..] == listeners;
    for i := 0 to |listeners|
      invariant lines + AllListenerLines(listeners[i..], order) == AllListenerLines(listeners, order)
    {
      var block := PrintListener(listeners[i], order);
      GroupLines(lines, block, AllListenerLines(listeners[i + 1..], order));
      assert listeners[i..][1..] == listeners[i + 1..];
      lines := lines + block;
    }
    assert lines + [] == lines;
  }

  lemma GroupLines(x: seq<string>, y: seq<string>, z: seq<string>)
    ensures x + (y + z) == (x + y) + z
  {
  }

  method CollapseBlanks(lines: seq<string>) returns (result: seq<string>)
    ensures result == Collapse(false, lines)
  {
    result := [];
    var prevBlank := false;
    assert lines[0..] == lines;
    for i := 0 to |lines|
      invariant result + Collapse(prevBlank, lines[i..]) == Collapse(false, lines)
    {
      assert lines[i..][1..] == lines[i + 1..];
      var isBlank := Blank(lines[i]);
      if !(isBlank && prevBlank) {
        GroupLines(result, [lines[i]], Collapse(isBlank, lines[i + 1..]));
        result := result + [lines[i]];
        prevBlank := isBlank;
      }
    }
    assert result + [] == result;
  }

  method PrintConf(conf: Conf, order: seq<Key>, listenerOrder: seq<Key>) returns (lines: seq<string>)
    ensures lines == PrintedLines(conf, order, listenerOrder)
  {
    lines := PrintManaged(conf.managed, order);
    if |lines| > 0 {
      lines := lines + [""];
    }
    var blocks := PrintListeners(conf.listeners, listenerOrder);
    lines := lines + blocks;
    var passthrough := conf.passthrough;
    while |passthrough| > 0 && Blank(passthrough[0])
      invariant DropBlanks(passthrough) == DropBlanks(conf.passthrough)
    {
      passthrough := passthrough[1..];
    }
    lines := CollapseBlanks(lines + passthrough);
  }

  /** The printer itself. */
  method SerialiseConf(conf: Conf) returns (text: string)
    ensures text == Serialise(conf)
  {
    var lines := PrintConf(conf, KEY_ORDER, LISTENER_ORDER);
    text := Join(lines, '\n');
  }

  // ---------------------------------------------------------------------------
  // What the parser produces
  // ---------------------------------------------------------------------------

  predicate CleanText(s: string) { Clean(s) && '\n' !in s }

  predicate WordText(s: string) { s != "" && forall i :: 0 <= i < |s| ==> !IsSpace(s[i]) }

  predicate DistinctTexts(vs: seq<string>) {
    (forall i :: 0 <= i < |vs| ==> CleanText(vs[i])) &&
    forall i, j :: 0 <= i < j < |vs| ==> vs[i] != vs[j]
  }

  predicate CanonManaged(managed: map<Key, seq<string>>) {
    forall k :: k in managed ==> HasPlace(k) && managed[k] != [] && DistinctTexts(managed[k])
  }

  predicate CanonOpt(v: Option<string>) { v.Some? ==> CleanText(v.value) }

  predicate CanonListener(l: Listener) {
    (l.bindAddress == "" || WordText(l.bindAddress)) && CleanText(l.protocol) &&
    CanonOpt(l.mountPoint) && CanonOpt(l.passwordFile) && CanonOpt(l.aclFile) &&
    forall k :: k in l.tls.texts ==> IsTlsText(k) && CleanText(l.tls.texts[k])
  }

  /** A line the parser passes through: plain, or with a key that is neither "listener" nor managed. */
  predicate CanonPass(line: string) {
    '\n' !in line &&
    match Classify(line)
    case Plain => true
    case Keyed(key, _) => key != ListenerKey && !IsManaged(key)
  }

  predicate Canonical(conf: Conf) {
    CanonManaged(conf.managed) &&
    (forall i :: 0 <= i < |conf.listeners| ==> CanonListener(conf.listeners[i])) &&
    (forall i :: 0 <= i < |conf.passthrough| ==> CanonPass(conf.passthrough[i]))
  }

  lemma {:induction false} FindSpaceAt(s: string)
    ensures match FindSpace(s) case None => ' ' !in s case Some(i) => i < |s| && s[i] == ' ' && ' ' !in s[..i]
  {
    if s != "" && s[0] != ' ' {
      FindSpaceAt(s[1..]);
      match FindSpace(s) {
        case None =>
        case Some(i) => assert s[..i] == [s[0]] + s[1..][..i - 1];
      }
    }
  }

  lemma ClassifyClean(line: string)
    requires Classify(line).Keyed?
    ensures Clean(Classify(line).value) && forall c :: c in Classify(line).value ==> c in line
  {
    var trimmed := Trim(line);
    TrimOf(line);
    hide KeyOf;
    FindSpaceAt(trimmed);
    var i := FindSpace(trimmed).value;
    var rest := trimmed[i + 1..];
    assert rest != "" by {
      assert trimmed[|trimmed| - 1] != ' ';
    }
    assert rest[|rest| - 1] == trimmed[|trimmed| - 1];
    TrimOf(rest);
  }

  lemma {:induction false} WordIsWord(s: string)
    ensures Word(s) == "" || WordText(Word(s))
    ensures Clean(s) ==> Word(s) != ""
  {
    if s != "" && !IsSpace(s[0]) {
      WordIsWord(s[1..]);
    }
  }

  lemma NewListenerCanonical(value: string)
    ensures CanonListener(NewListener(value))
  {
    WordIsWord(TrimStart(AfterWord(value)));
    var mqtt := "mqtt";
    assert CleanText(mqtt);
  }

  lemma ApplyKeyCanonical(l: Listener, key: Key, value: string)
    requires CanonListener(l) && CleanText(value)
    ensures CanonListener(ApplyKey(l, key, value))
  {
  }

  lemma AddManagedCanonical(managed: map<Key, seq<string>>, key: Key, value: string)
    requires CanonManaged(managed) && HasPlace(key) && CleanText(value)
    ensures CanonManaged(AddManaged(managed, key, value))
  {
    assert DistinctTexts([value]);
    if key in managed && value !in managed[key] {
      assert DistinctTexts(managed[key] + [value]);
    }
  }

  lemma ReadLineCanonical(s: State, line: string)
    requires Canonical(s.conf) && '\n' !in line
    ensures Canonical(ReadLine(s, line).conf)
  {
    hide CanonListener, CanonManaged, HasPlace, IsSubkey, NewListener, ApplyKey, AddManaged, Classify, Clean;
    match Classify(line) {
      case Plain =>
      case Keyed(key, value) =>
        ClassifyClean(line);
        if key == ListenerKey {
          NewListenerCanonical(value);
        } else if s.open && s.conf.listeners != [] && IsSubkey(key) {
          ApplyKeyCanonical(s.conf.listeners[|s.conf.listeners| - 1], key, value);
        } else if IsManaged(key) {
          ManagedKeyPlaced(key);
          AddManagedCanonical(s.conf.managed, ManagedKey(key), value);
        }
    }
  }

  lemma ManagedKeyPlaced(key: Key)
    requires IsManaged(key)
    ensures HasPlace(ManagedKey(key))
  {
  }

  lemma {:induction false} ReadLinesCanonical(s: State, lines: seq<string>)
    requires Canonical(s.conf) && forall i :: 0 <= i < |lines| ==> '\n' !in lines[i]
    ensures Canonical(ReadLines(s, lines).conf)
    decreases lines
  {
    if lines != [] {
      ReadLineCanonical(s, lines[0]);
      ReadLinesCanonical(ReadLine(s, lines[0]), lines[1..]);
    }
  }

  /** Every configuration that was parsed is canonical. */
  lemma ParseCanonical(raw: string)
    ensures Canonical(Parse(raw))
  {
    ReadLinesCanonical(START, Split(raw, '\n'));
  }

  // ---------------------------------------------------------------------------
  // Reading back one printed line
  // ---------------------------------------------------------------------------

  /** A word of lower-case letters and underscores: it can stand in front of a value. */
  predicate KeyText(word: string) {
    word != "" && forall i :: 0 <= i < |word| ==> '_' <= word[i] <= 'z'
  }

  // (a few names at a time: they are compared character by character)

  lemma Words1()
    ensures KeyText("per_listener_settings")
    ensures KeyText("allow_anonymous")
    ensures KeyText("persistence")
    ensures KeyText("persistence_location")
  {
  }

  lemma Words2()
    ensures KeyText("max_connections")
    ensures KeyText("max_inflight_messages")
    ensures KeyText("max_queued_messages")
    ensures KeyText("max_packet_size")
  {
  }

  lemma Words3()
    ensures KeyText("message_size_limit")
    ensures KeyText("max_keepalive")
    ensures KeyText("persistent_client_expiration")
    ensures KeyText("retain_available")
  {
  }

  lemma Words4()
    ensures KeyText("set_tcp_nodelay")
    ensures KeyText("connection_messages")
    ensures KeyText("sys_interval")
    ensures KeyText("log_dest")
    ensures KeyText("log_type")
    ensures KeyText("plugin")
  {
  }

  lemma Words5()
    ensures KeyText("plugin_opt_config_file")
    ensures KeyText("include_dir")
    ensures KeyText("plugin_opt_dynsec_config_file")
    ensures KeyText("listener")
  {
  }

  lemma Words6()
    ensures KeyText("protocol")
    ensures KeyText("socket_domain")
    ensures KeyText("mount_point")
    ensures KeyText("max_qos")
    ensures KeyText("certfile")
    ensures KeyText("keyfile")
    ensures KeyText("cafile")
    ensures KeyText("capath")
    ensures KeyText("crlfile")
  {
  }

  lemma Words7()
    ensures KeyText("require_certificate")
    ensures KeyText("use_identity_as_username")
    ensures KeyText("use_subject_as_username")
  {
  }

  lemma Words8()
    ensures KeyText("tls_version")
    ensures KeyText("websockets_log_level")
    ensures KeyText("password_file")
    ensures KeyText("acl_file")
  {
  }

  lemma Keys1()
    ensures KeyOf("per_listener_settings") == PerListenerSettings
    ensures KeyOf("allow_anonymous") == AllowAnonymous
    ensures KeyOf("persistence") == Persistence
    ensures KeyOf("persistence_location") == PersistenceLocation
  {
  }

  lemma Keys2()
    ensures KeyOf("max_connections") == MaxConnections
    ensures KeyOf("max_inflight_messages") == MaxInflightMessages
    ensures KeyOf("max_queued_messages") == MaxQueuedMessages
    ensures KeyOf("max_packet_size") == MaxPacketSize
  {
  }

  lemma Keys3()
    ensures KeyOf("message_size_limit") == MessageSizeLimit
    ensures KeyOf("max_keepalive") == MaxKeepalive
    ensures KeyOf("persistent_client_expiration") == PersistentClientExpiration
    ensures KeyOf("retain_available") == RetainAvailable
  {
  }

  lemma Keys4()
    ensures KeyOf("set_tcp_nodelay") == SetTcpNodelay
    ensures KeyOf("connection_messages") == ConnectionMessages
    ensures KeyOf("sys_interval") == SysInterval
    ensures KeyOf("log_dest") == LogDest
    ensures KeyOf("log_type") == LogType
    ensures KeyOf("plugin") == Plugin
  {
  }

  lemma Keys5()
    ensures KeyOf("plugin_opt_config_file") == PluginOptConfigFile
    ensures KeyOf("include_dir") == IncludeDir
    ensures KeyOf("plugin_opt_dynsec_config_file") == PluginOptDynsecConfigFile
    ensures KeyOf("listener") == ListenerKey
  {
  }

  lemma Keys6()
    ensures KeyOf("protocol") == Protocol
    ensures KeyOf("socket_domain") == SocketDomain
    ensures KeyOf("mount_point") == MountPoint
    ensures KeyOf("max_qos") == MaxQos
  {
  }

  lemma Keys9()
    ensures KeyOf("certfile") == CertFile
    ensures KeyOf("keyfile") == KeyFile
    ensures KeyOf("cafile") == CaFile
    ensures KeyOf("capath") == CaPath
    ensures KeyOf("crlfile") == CrlFile
  {
  }

  lemma Keys7()
    ensures KeyOf("require_certificate") == RequireCertificate
    ensures KeyOf("use_identity_as_username") == UseIdentityAsUsername
    ensures KeyOf("use_subject_as_username") == UseSubjectAsUsername
  {
  }

  lemma Keys8()
    ensures KeyOf("tls_version") == TlsVersion
    ensures KeyOf("websockets_log_level") == WebsocketsLogLevel
    ensures KeyOf("password_file") == PasswordFile
    ensures KeyOf("acl_file") == AclFile
  {
  }

  /** A key's name can stand in front of a value, and names the key. */
  lemma NamesKeyText(key: Key)
    requires !key.Other?
    ensures KeyText(Name(key))
  {
    hide KeyText;
    Words1();
    Words2();
    Words3();
    Words4();
    Words5();
    Words6();
    Words7();
    Words8();
  }

  lemma NamesRead(key: Key)
    requires !key.Other?
    ensures KeyText(Name(key)) && KeyOf(Name(key)) == key
  {
    hide KeyOf, KeyText;
    NamesKeyText(key);
    Keys1();
    Keys2();
    Keys3();
    Keys4();
    Keys5();
    Keys6();
    Keys7();
    Keys8();
    Keys9();
  }

  lemma KeyTextClean(word: string)
    requires KeyText(word)
    ensures CleanText(word) && ' ' !in word && word[0] != '#'
  {
  }

  lemma {:induction false} FindSpaceAfter(word: string, value: string)
    requires ' ' !in word
    ensures FindSpace(word + " " + value) == Some(|word|)
  {
    var line := word + " " + value;
    if word != "" {
      assert line[1..] == word[1..] + " " + value;
      FindSpaceAfter(word[1..], value);
    }
  }

  lemma ClassifyWord(word: string, value: string)
    requires KeyText(word) && Clean(value)
    ensures Classify(word + " " + value) == Keyed(KeyOf(word), value)
  {
    var line := word + " " + value;
    KeyTextClean(word);
    assert line[0] == word[0] && line[|line| - 1] == value[|value| - 1];
    CleanTrims(line);
    FindSpaceAfter(word, value);
    assert line[..|word|] == word && line[|word| + 1..] == value;
    CleanTrims(word);
    CleanTrims(value);
  }

  lemma ClassifyPrinted(key: Key, value: string)
    requires !key.Other? && Clean(value)
    ensures Classify(Line(key, value)) == Keyed(key, value)
  {
    NamesRead(key);
    ClassifyWord(Name(key), value);
  }

  lemma LineHasNoBreak(key: Key, value: string)
    requires !key.Other? && '\n' !in value
    ensures '\n' !in Line(key, value)
  {
    NamesRead(key);
  }

  lemma {:induction false} ReadLinesAppend(s: State, x: seq<string>, y: seq<string>)
    ensures ReadLines(s, x + y) == ReadLines(ReadLines(s, x), y)
    decreases x
  {
    if x == [] {
      assert x + y == y;
    } else {
      assert (x + y)[1..] == x[1..] + y;
      ReadLinesAppend(ReadLine(s, x[0]), x[1..], y);
    }
  }

  // ----- numbers -----

  lemma {:induction false} DigitPrefixAll(s: string)
    requires AllDigits(s)
    ensures DigitPrefix(s) == s
  {
    if s != "" {
      DigitPrefixAll(s[1..]);
    }
  }

  lemma DigitsBack(m: nat)
    ensures TrimStart(Dec(m)) == Dec(m) && IsDigit(Dec(m)[0]) && WordText(Dec(m))
    ensures DigitPrefix(Dec(m)) == Dec(m) && Value(Dec(m)) == m
  {
    hide Dec, Value, DigitPrefix;
    ValueDec(m);
    DigitPrefixAll(Dec(m));
    assert IsDigit(Dec(m)[0]);
  }

  lemma NegativeBack(m: nat)
    ensures ParseInt("-" + Dec(m)) == Int(0 - m) && WordText("-" + Dec(m))
  {
    var d := Dec(m);
    var text := "-" + d;
    DigitsBack(m);
    assert text[0] == '-' && text[1..] == d;
    assert TrimStart(text) == text;
  }

  lemma PositiveBack(m: nat)
    ensures ParseInt(Dec(m)) == Int(m)
  {
    DigitsBack(m);
  }

  lemma NaNBack()
    ensures ParseInt("NaN") == NaN && WordText("NaN")
  {
    var text := "NaN";
    assert text[0] == 'N';
    assert TrimStart(text) == text && DigitPrefix(text) == "";
  }

  /** A printed number parses back to itself. */
  lemma NumberBack(n: Number)
    ensures ParseInt(PrintNumber(n)) == n
    ensures WordText(PrintNumber(n))
  {
    if n.NaN? {
      NaNBack();
    } else if n.n < 0 {
      NegativeBack(-n.n);
    } else {
      PositiveBack(n.n);
      DigitsBack(n.n);
    }
  }

  lemma WordTextClean(s: string)
    requires WordText(s)
    ensures CleanText(s)
  {
  }

  // ----- managed keys -----

  lemma {:induction false} DistinctSame(vs: seq<string>)
    requires forall i, j :: 0 <= i < j < |vs| ==> vs[i] != vs[j]
    ensures Distinct(vs) == vs
  {
    if vs != [] {
      DistinctSame(vs[..|vs| - 1]);
      assert vs[..|vs| - 1] + [vs[|vs| - 1]] == vs;
    }
  }

  type Managed = map<Key, seq<string>>

  function AddAll(managed: Managed, key: Key, values: seq<string>): Managed
    decreases values
  {
    if values == [] then managed else AddAll(AddManaged(managed, key, values[0]), key, values[1..])
  }

  function AddKeys(managed: Managed, keys: seq<Key>, source: Managed): Managed
    decreases keys
  {
    if keys == [] then managed
    else
      var key := keys[0];
      AddKeys(if key in source then AddAll(managed, key, source[key]) else managed, keys[1..], source)
  }

  lemma ManagedLineRead(conf: Conf, key: Key, value: string)
    requires HasPlace(key) && Clean(value)
    ensures ReadLine(State(conf, false), Line(key, value)) ==
            State(conf.(managed := AddManaged(conf.managed, key, value)), false)
  {
    hide Classify, AddManaged, Line;
    ClassifyPrinted(key, value);
  }

  /** The printed lines of a key are read as its values, one after the other. */
  lemma {:induction false} ValuesRead(conf: Conf, key: Key, values: seq<string>)
    requires HasPlace(key) && forall i :: 0 <= i < |values| ==> Clean(values[i])
    ensures ReadLines(State(conf, false), LinesOf(key, values)) ==
            State(conf.(managed := AddAll(conf.managed, key, values)), false)
    decreases values
  {
    if values != [] {
      var next := conf.(managed := AddManaged(conf.managed, key, values[0]));
      ManagedLineRead(conf, key, values[0]);
      ValuesRead(next, key, values[1..]);
      assert LinesOf(key, values)[1..] == LinesOf(key, values[1..]);
    }
  }

  lemma {:induction false} ManagedRead(conf: Conf, keys: seq<Key>, source: Managed)
    requires CanonManaged(source) && forall i :: 0 <= i < |keys| ==> HasPlace(keys[i])
    ensures ReadLines(State(conf, false), ManagedLines(keys, source)) ==
            State(conf.(managed := AddKeys(conf.managed, keys, source)), false)
    decreases keys
  {
    if keys != [] {
      var key := keys[0];
      var lines := if key in source then LinesOf(key, Distinct(source[key])) else [];
      var next := conf.(managed := if key in source then AddAll(conf.managed, key, source[key]) else conf.managed);
      if key in source {
        DistinctSame(source[key]);
        ValuesRead(conf, key, source[key]);
      }
      ReadLinesAppend(State(conf, false), lines, ManagedLines(keys[1..], source));
      ManagedRead(next, keys[1..], source);
    }
  }

  /** Adding a key's values where its first `done` are known brings the others. */
  lemma {:induction false} AddAllBack(managed: Managed, key: Key, values: seq<string>, done: nat)
    requires DistinctTexts(values) && done <= |values|
    requires if done == 0 then key !in managed else key in managed && managed[key] == values[..done]
    ensures values != [] ==> AddAll(managed, key, values[done..]) == managed[key := values]
    decreases |values| - done
  {
    if done < |values| {
      var next := AddManaged(managed, key, values[done]);
      assert values[..done + 1] == values[..done] + [values[done]];
      assert values[done] !in values[..done];
      assert done == 0 ==> values[..1] == [values[0]];
      assert next == managed[key := values[..done + 1]];
      AddAllBack(next, key, values, done + 1);
      assert values[done..][1..] == values[done + 1..];
      assert next[key := values] == managed[key := values];
    } else if values != [] {
      assert values[..done] == values && values[done..] == [];
      assert managed[key := values] == managed;
    }
  }

  lemma {:induction false} AddAllAgain(managed: Managed, key: Key, values: seq<string>)
    requires key in managed && forall i :: 0 <= i < |values| ==> values[i] in managed[key]
    ensures AddAll(managed, key, values) == managed
    decreases values
  {
    if values != [] {
      AddAllAgain(managed, key, values[1..]);
    }
  }

  lemma {:induction false} AddKeysBack(managed: Managed, keys: seq<Key>, source: Managed)
    requires CanonManaged(source)
    requires forall k :: k in managed ==> k in source && managed[k] == source[k]
    ensures forall k :: k in AddKeys(managed, keys, source) <==> k in managed || (k in keys && k in source)
    ensures forall k :: k in AddKeys(managed, keys, source) ==>
              k in source && AddKeys(managed, keys, source)[k] == source[k]
    decreases keys
  {
    if keys != [] {
      var key := keys[0];
      if key in source {
        var values := source[key];
        if key in managed {
          AddAllAgain(managed, key, values);
        } else {
          assert values[0..] == values;
          AddAllBack(managed, key, values, 0);
        }
      }
      AddKeysBack(if key in source then AddAll(managed, key, source[key]) else managed, keys[1..], source);
    }
  }

  /** The managed lines of a canonical configuration are read back as its managed keys. */
  lemma ManagedBack(keys: seq<Key>, source: Managed)
    requires CanonManaged(source) && ManagedOrder(keys)
    ensures ReadLines(START, ManagedLines(keys, source)) == State(Conf(source, [], []), false)
  {
    ManagedRead(START.conf, keys, source);
    AddKeysBack(map[], keys, source);
    assert AddKeys(map[], keys, source) == source;
  }

  // ----- listeners -----

  function ApplyPairs(l: Listener, pairs: seq<(Key, string)>): Listener
    decreases pairs
  {
    if pairs == [] then l else ApplyPairs(ApplyKey(l, pairs[0].0, pairs[0].1), pairs[1..])
  }

  predicate GoodPairs(pairs: seq<(Key, string)>) {
    forall i :: 0 <= i < |pairs| ==> IsSubkey(pairs[i].0) && CleanText(pairs[i].1)
  }

  /** A sub-key line below a listener goes to that listener. */
  lemma PairLineRead(conf: Conf, key: Key, value: string)
    requires conf.listeners != [] && IsSubkey(key) && Clean(value)
    ensures var n := |conf.listeners| - 1;
            ReadLine(State(conf, true), Line(key, value)) ==
            State(conf.(listeners := conf.listeners[..n] + [ApplyKey(conf.listeners[n], key, value)]), true)
  {
    ClassifyPrinted(key, value);
  }

  lemma {:induction false} PairsRead(conf: Conf, pairs: seq<(Key, string)>)
    requires conf.listeners != [] && GoodPairs(pairs)
    ensures var n := |conf.listeners| - 1;
            ReadLines(State(conf, true), PairLines(pairs)) ==
            State(conf.(listeners := conf.listeners[..n] + [ApplyPairs(conf.listeners[n], pairs)]), true)
    decreases pairs
  {
    var n := |conf.listeners| - 1;
    if pairs == [] {
      assert conf.listeners[..n] + [conf.listeners[n]] == conf.listeners;
    } else {
      PairLineRead(conf, pairs[0].0, pairs[0].1);
      var next := conf.(listeners := conf.listeners[..n] + [ApplyKey(conf.listeners[n], pairs[0].0, pairs[0].1)]);
      PairsRead(next, pairs[1..]);
      assert next.listeners[..n] == conf.listeners[..n];
      assert PairLines(pairs)[1..] == PairLines(pairs[1..]);
    }
  }

  lemma OptFlagBack(v: Option<bool>)
    ensures OptFlag(v).Some? ==> CleanText(OptFlag(v).value) && v == Some(OptFlag(v).value == "true")
    ensures OptFlag(v).None? ==> v.None?
  {
  }

  lemma OptNumberBack(v: Option<Number>)
    ensures OptNumber(v).Some? ==> CleanText(OptNumber(v).value) && v == Some(ParseInt(OptNumber(v).value))
    ensures OptNumber(v).None? ==> v.None?
  {
    if v.Some? {
      NumberBack(v.value);
      WordTextClean(PrintNumber(v.value));
    }
  }

  /** The listener as its first line alone gives it. */
  function Bare(l: Listener): Listener {
    Listener(l.port, l.bindAddress, "mqtt", None, None, None, Tls(map[], None, None, None), None, None, None)
  }

  predicate IsStored(key: Key) {
    IsSubkey(key) && !key.SocketDomain? && !key.WebsocketsLogLevel?
  }

  /** An order that has every key a listener stores, and no other. */
  ghost predicate ListenerOrder(keys: seq<Key>) {
    (forall i :: 0 <= i < |keys| ==> IsStored(keys[i])) && forall key :: IsStored(key) ==> key in keys
  }

  /** The printing order of a listener has every key that a listener stores, and no other. */
  lemma ListenerOrderStored()
    ensures ListenerOrder(LISTENER_ORDER)
  {
  }

  lemma ValueClean(l: Listener, key: Key)
    requires CanonListener(l) && ValueOf(l, key).Some?
    ensures CleanText(ValueOf(l, key).value)
  {
    match key {
      case MaxConnections => OptNumberBack(l.maxConnections);
      case MaxQos => OptNumberBack(l.maxQos);
      case RequireCertificate => OptFlagBack(l.tls.requireCertificate);
      case UseIdentityAsUsername => OptFlagBack(l.tls.identityAsUsername);
      case UseSubjectAsUsername => OptFlagBack(l.tls.subjectAsUsername);
      case AllowAnonymous => OptFlagBack(l.allowAnonymous);
      case _ =>
    }
  }

  /** Listener `y` prints `value` for the key, and otherwise what `x` prints. */
  ghost predicate PrintsAlso(y: Listener, x: Listener, key: Key, value: string) {
    && CanonListener(y) && y.port == x.port && y.bindAddress == x.bindAddress
    && ValueOf(y, key) == Some(value)
    && forall k :: k != key ==> ValueOf(y, k) == ValueOf(x, k)
  }

  lemma ApplyNumber(x: Listener, key: Key, v: Option<Number>)
    requires CanonListener(x) && (key.MaxConnections? || key.MaxQos?) && OptNumber(v).Some?
    ensures PrintsAlso(ApplyKey(x, key, OptNumber(v).value), x, key, OptNumber(v).value)
  {
    OptNumberBack(v);
  }

  lemma ApplyFlag(x: Listener, key: Key, v: Option<bool>)
    requires CanonListener(x) && OptFlag(v).Some?
    requires key.RequireCertificate? || key.UseIdentityAsUsername? || key.UseSubjectAsUsername? || key.AllowAnonymous?
    ensures PrintsAlso(ApplyKey(x, key, OptFlag(v).value), x, key, OptFlag(v).value)
  {
    OptFlagBack(v);
    ApplyKeyCanonical(x, key, OptFlag(v).value);
    hide CanonListener, CleanText;
  }

  lemma TlsTextSet(texts: map<Key, string>, key: Key, value: string)
    requires value != ""
    ensures OptIn(texts[key := value], key) == Some(value)
    ensures forall k :: k != key ==> OptIn(texts[key := value], k) == OptIn(texts, k)
  {
  }

  lemma ApplyTlsText(x: Listener, key: Key, value: string)
    requires CanonListener(x) && IsTlsText(key) && CleanText(value)
    ensures PrintsAlso(ApplyKey(x, key, value), x, key, value)
  {
    ApplyKeyCanonical(x, key, value);
    TlsTextSet(x.tls.texts, key, value);
    TlsTextPrinted(SetText(x, key, value), key);
    hide CanonListener, CleanText, OptIn, OptText, OptNumber, OptFlag, OptProtocol;
  }

  lemma ApplyPlain(x: Listener, key: Key, value: string)
    requires CanonListener(x) && CleanText(value)
    requires key.MountPoint? || key.PasswordFile? || key.AclFile? || (key.Protocol? && OptProtocol(value).Some?)
    ensures PrintsAlso(ApplyKey(x, key, value), x, key, value)
  {
    ApplyKeyCanonical(x, key, value);
  }

  /** Applying what is printed for a key of `l` makes the listener print it too, and nothing else differ. */
  lemma ApplyPrinted(x: Listener, l: Listener, key: Key)
    requires CanonListener(x) && CanonListener(l) && ValueOf(l, key).Some?
    ensures PrintsAlso(ApplyKey(x, key, ValueOf(l, key).value), x, key, ValueOf(l, key).value)
  {
    ValueClean(l, key);
    match key {
      case MaxConnections => ApplyNumber(x, key, l.maxConnections);
      case MaxQos => ApplyNumber(x, key, l.maxQos);
      case RequireCertificate => ApplyFlag(x, key, l.tls.requireCertificate);
      case UseIdentityAsUsername => ApplyFlag(x, key, l.tls.identityAsUsername);
      case UseSubjectAsUsername => ApplyFlag(x, key, l.tls.subjectAsUsername);
      case AllowAnonymous => ApplyFlag(x, key, l.allowAnonymous);
      case Protocol => ApplyPlain(x, key, l.protocol);
      case MountPoint => ApplyPlain(x, key, l.mountPoint.value);
      case PasswordFile => ApplyPlain(x, key, l.passwordFile.value);
      case AclFile => ApplyPlain(x, key, l.aclFile.value);
      case CertFile => ApplyTlsText(x, key, l.tls.texts[key]);
      case KeyFile => ApplyTlsText(x, key, l.tls.texts[key]);
      case CaFile => ApplyTlsText(x, key, l.tls.texts[key]);
      case CaPath => ApplyTlsText(x, key, l.tls.texts[key]);
      case CrlFile => ApplyTlsText(x, key, l.tls.texts[key]);
      case TlsVersion => ApplyTlsText(x, key, l.tls.texts[key]);
    }
  }

  lemma SameNumber(a: Option<Number>, b: Option<Number>)
    requires OptNumber(a) == OptNumber(b)
    ensures a == b
  {
    OptNumberBack(a);
    OptNumberBack(b);
  }

  lemma SameFlag(a: Option<bool>, b: Option<bool>)
    requires OptFlag(a) == OptFlag(b)
    ensures a == b
  {
  }

  lemma SameText(a: Option<string>, b: Option<string>)
    requires CanonOpt(a) && CanonOpt(b) && OptText(a) == OptText(b)
    ensures a == b
  {
  }

  lemma SameProtocol(a: string, b: string)
    requires CleanText(a) && CleanText(b) && OptProtocol(a) == OptProtocol(b)
    ensures a == b
  {
  }

  lemma SameTls(x: Tls, l: Tls)
    requires forall k :: k in x.texts ==> IsTlsText(k) && x.texts[k] != ""
    requires forall k :: k in l.texts ==> IsTlsText(k) && l.texts[k] != ""
    requires forall k :: IsTlsText(k) ==> OptIn(x.texts, k) == OptIn(l.texts, k)
    requires OptFlag(x.requireCertificate) == OptFlag(l.requireCertificate)
    requires OptFlag(x.identityAsUsername) == OptFlag(l.identityAsUsername)
    requires OptFlag(x.subjectAsUsername) == OptFlag(l.subjectAsUsername)
    ensures x == l
  {
  }

  lemma TlsTextPrinted(l: Listener, key: Key)
    requires IsTlsText(key)
    ensures ValueOf(l, key) == OptIn(l.tls.texts, key)
  {
  }

  lemma TlsFlagsPrinted(l: Listener)
    ensures ValueOf(l, RequireCertificate) == OptFlag(l.tls.requireCertificate)
    ensures ValueOf(l, UseIdentityAsUsername) == OptFlag(l.tls.identityAsUsername)
    ensures ValueOf(l, UseSubjectAsUsername) == OptFlag(l.tls.subjectAsUsername)
  {
  }

  lemma SameListenerTls(x: Listener, l: Listener)
    requires CanonListener(x) && CanonListener(l)
    requires forall k :: IsTlsText(k) ==> ValueOf(x, k) == ValueOf(l, k)
    requires ValueOf(x, RequireCertificate) == ValueOf(l, RequireCertificate)
    requires ValueOf(x, UseIdentityAsUsername) == ValueOf(l, UseIdentityAsUsername)
    requires ValueOf(x, UseSubjectAsUsername) == ValueOf(l, UseSubjectAsUsername)
    ensures x.tls == l.tls
  {
    hide OptIn, OptFlag, ValueOf, IsTlsText;
    forall k | IsTlsText(k) ensures OptIn(x.tls.texts, k) == OptIn(l.tls.texts, k) {
      TlsTextPrinted(x, k);
      TlsTextPrinted(l, k);
    }
    TlsFlagsPrinted(x);
    TlsFlagsPrinted(l);
    SameTls(x.tls, l.tls);
  }

  lemma SamePlain(x: Listener, l: Listener)
    requires CanonListener(x) && CanonListener(l)
    requires ValueOf(x, Protocol) == ValueOf(l, Protocol) && ValueOf(x, MountPoint) == ValueOf(l, MountPoint)
    requires ValueOf(x, PasswordFile) == ValueOf(l, PasswordFile) && ValueOf(x, AclFile) == ValueOf(l, AclFile)
    ensures x.protocol == l.protocol && x.mountPoint == l.mountPoint
    ensures x.passwordFile == l.passwordFile && x.aclFile == l.aclFile
  {
    hide CanonOpt, CleanText, OptText, OptProtocol;
    SameProtocol(x.protocol, l.protocol);
    SameText(x.mountPoint, l.mountPoint);
    SameText(x.passwordFile, l.passwordFile);
    SameText(x.aclFile, l.aclFile);
  }

  lemma SameNumbers(x: Listener, l: Listener)
    requires ValueOf(x, MaxConnections) == ValueOf(l, MaxConnections) && ValueOf(x, MaxQos) == ValueOf(l, MaxQos)
    requires ValueOf(x, AllowAnonymous) == ValueOf(l, AllowAnonymous)
    ensures x.maxConnections == l.maxConnections && x.maxQos == l.maxQos && x.allowAnonymous == l.allowAnonymous
  {
    SameNumber(x.maxConnections, l.maxConnections);
    SameNumber(x.maxQos, l.maxQos);
    SameFlag(x.allowAnonymous, l.allowAnonymous);
  }

  /** Listeners at the same address that print the same are the same. */
  lemma SamePrintSame(x: Listener, l: Listener)
    requires CanonListener(x) && CanonListener(l) && x.port == l.port && x.bindAddress == l.bindAddress
    requires forall k :: IsStored(k) ==> ValueOf(x, k) == ValueOf(l, k)
    ensures x == l
  {
    assert x.tls == l.tls by { SameListenerTls(x, l); }
    SamePlain(x, l);
    SameNumbers(x, l);
  }

  /** Applying the pairs of `l` to a listener that already prints like it except for those keys gives `l`. */
  lemma {:induction false} PairsApply(x: Listener, l: Listener, keys: seq<Key>)
    requires CanonListener(x) && CanonListener(l) && x.port == l.port && x.bindAddress == l.bindAddress
    requires forall k :: IsStored(k) ==> ValueOf(x, k) == ValueOf(l, k) || (k in keys && ValueOf(x, k).None?)
    ensures ApplyPairs(x, Pairs(l, keys)) == l
    decreases keys
  {
    if keys == [] {
      SamePrintSame(x, l);
    } else {
      var key := keys[0];
      if ValueOf(l, key).Some? {
        ApplyPrinted(x, l, key);
        PairsApply(ApplyKey(x, key, ValueOf(l, key).value), l, keys[1..]);
        assert Pairs(l, keys)[1..] == Pairs(l, keys[1..]);
      } else {
        assert [] + Pairs(l, keys[1..]) == Pairs(l, keys[1..]);
        PairsApply(x, l, keys[1..]);
      }
    }
  }

  lemma {:induction false} PairsGood(l: Listener, keys: seq<Key>)
    requires CanonListener(l) && forall i :: 0 <= i < |keys| ==> IsStored(keys[i])
    ensures GoodPairs(Pairs(l, keys))
    decreases keys
  {
    if keys != [] {
      PairsGood(l, keys[1..]);
      if ValueOf(l, keys[0]).Some? {
        ValueClean(l, keys[0]);
      }
    }
  }

  lemma BareCanonical(l: Listener)
    requires CanonListener(l)
    ensures CanonListener(Bare(l))
    ensures forall k :: IsStored(k) ==> ValueOf(Bare(l), k).None?
  {
    var mqtt := "mqtt";
    assert CleanText(mqtt);
  }

  /** A listener's pairs, applied to what its first line gives, restore it. */
  lemma PairsBack(l: Listener, keys: seq<Key>)
    requires CanonListener(l) && ListenerOrder(keys)
    ensures GoodPairs(Pairs(l, keys)) && ApplyPairs(Bare(l), Pairs(l, keys)) == l
  {
    BareCanonical(l);
    PairsGood(l, keys);
    PairsApply(Bare(l), l, keys);
  }

  // ----- the first line of a listener -----

  lemma {:induction false} WordSplit(word: string, rest: string)
    requires (forall i :: 0 <= i < |word| ==> !IsSpace(word[i])) && (rest == "" || IsSpace(rest[0]))
    ensures Word(word + rest) == word && AfterWord(word + rest) == rest
    decreases word
  {
    if word == "" {
      assert word + rest == rest;
    } else {
      assert (word + rest)[1..] == word[1..] + rest;
      WordSplit(word[1..], rest);
    }
  }

  lemma HeadBack(l: Listener)
    requires CanonListener(l)
    ensures CleanText(Head(l)) && NewListener(Head(l)) == Bare(l)
  {
    var port, bind := PrintNumber(l.port), l.bindAddress;
    NumberBack(l.port);
    var rest := if bind != "" then " " + bind else "";
    WordSplit(port, rest);
    assert port + "" == port;
    if bind != "" {
      assert rest[0] == ' ' && rest[1..] == bind;
      assert TrimStart(rest) == bind by {
        assert TrimStart(bind) == bind;
      }
      WordSplit(bind, "");
      assert bind + "" == bind;
      assert Head(l)[0] == port[0] && Head(l)[|Head(l)| - 1] == bind[|bind| - 1];
      WordTextClean(port);
      WordTextClean(bind);
      assert '\n' !in Head(l);
    } else {
      assert Head(l) == port;
      WordTextClean(port);
      assert TrimStart("") == "" && Word("") == "";
    }
  }

  lemma ListenerLineRead(s: State, l: Listener)
    requires CanonListener(l)
    ensures ReadLine(s, Line(ListenerKey, Head(l))) == State(s.conf.(listeners := s.conf.listeners + [Bare(l)]), true)
  {
    HeadBack(l);
    ClassifyPrinted(ListenerKey, Head(l));
  }

  lemma BlankLineRead(s: State)
    ensures ReadLines(s, [""]) == s.(conf := s.conf.(passthrough := s.conf.passthrough + [""]))
  {
  }

  /** A printed listener block is read as that listener (and its closing blank line). */
  lemma ListenerBack(s: State, l: Listener, order: seq<Key>)
    requires CanonListener(l) && ListenerOrder(order)
    ensures ReadLines(s, ListenerLines(l, order)) == State(WithListeners(s.conf, [l]), true)
  {
    ListenerLineRead(s, l);
    PairsBack(l, order);
    PairsRead(s.conf.(listeners := s.conf.listeners + [Bare(l)]), Pairs(l, order));
    BlockBack(s, Line(ListenerKey, Head(l)), PairLines(Pairs(l, order)));
    assert (s.conf.listeners + [Bare(l)])[..|s.conf.listeners|] == s.conf.listeners;
    assert Blanks(1) == [""];
    hide ReadLine, Head, Pairs, PairLines, CanonListener, ListenerOrder;
  }

  lemma BlockBack(s: State, first: string, lines: seq<string>)
    ensures var end := ReadLines(ReadLine(s, first), lines);
            ReadLines(s, [first] + lines + [""]) == end.(conf := end.conf.(passthrough := end.conf.passthrough + [""]))
  {
    hide ReadLine;
    assert ([first] + lines)[1..] == lines;
    ReadLinesAppend(s, [first] + lines, [""]);
    BlankLineRead(ReadLines(ReadLine(s, first), lines));
  }

  function Blanks(n: nat): seq<string> { seq(n, i => "") }

  /** The state after listener blocks: the listeners and a blank line for each. */
  function WithListeners(conf: Conf, ls: seq<Listener>): Conf {
    conf.(listeners := conf.listeners + ls, passthrough := conf.passthrough + Blanks(|ls|))
  }

  lemma WithListenersStep(conf: Conf, ls: seq<Listener>)
    requires ls != []
    ensures WithListeners(WithListeners(conf, [ls[0]]), ls[1..]) == WithListeners(conf, ls)
  {
  }

  lemma ListenersStep(s: State, block: seq<string>, rest: seq<string>, ls: seq<Listener>)
    requires ls != [] && ReadLines(s, block) == State(WithListeners(s.conf, [ls[0]]), true)
    requires ReadLines(State(WithListeners(s.conf, [ls[0]]), true), rest) ==
             State(WithListeners(WithListeners(s.conf, [ls[0]]), ls[1..]), true)
    ensures ReadLines(s, block + rest) == State(WithListeners(s.conf, ls), true)
  {
    ReadLinesAppend(s, block, rest);
    WithListenersStep(s.conf, ls);
  }

  lemma {:induction false} ListenersBack(s: State, ls: seq<Listener>, order: seq<Key>)
    requires ListenerOrder(order) && forall i :: 0 <= i < |ls| ==> CanonListener(ls[i])
    ensures ReadLines(s, AllListenerLines(ls, order)) == State(WithListeners(s.conf, ls), s.open || ls != [])
    decreases ls
  {
    if ls == [] {
      assert s.conf.listeners + ls == s.conf.listeners && s.conf.passthrough + Blanks(0) == s.conf.passthrough;
    } else {
      ListenerBack(s, ls[0], order);
      ListenersBack(State(WithListeners(s.conf, [ls[0]]), true), ls[1..], order);
      ListenersStep(s, ListenerLines(ls[0], order), AllListenerLines(ls[1..], order), ls);
    }
  }

  // ----- passthrough -----

  /** Whether the first line with a key has a listener's sub-key. */
  predicate FirstKeyIsSubkey(lines: seq<string>) {
    lines != [] &&
    match Classify(lines[0])
    case Plain => FirstKeyIsSubkey(lines[1..])
    case Keyed(key, _) => IsSubkey(key)
  }

  /** Reprinted behind the listeners, the first passthrough line with a key would be read as the last listener's. */
  predicate Swallows(conf: Conf) {
    conf.listeners != [] && FirstKeyIsSubkey(conf.passthrough)
  }

  /** A passthrough line comes back unless it is swallowed; one with a key closes the current listener. */
  lemma PassLineBack(s: State, line: string)
    requires CanonPass(line)
    requires s.open && s.conf.listeners != [] && Classify(line).Keyed? ==> !IsSubkey(Classify(line).key)
    ensures ReadLine(s, line) ==
            State(WithPass(s.conf, [line]), s.open && Classify(line).Plain?)
  {
  }

  function WithPass(conf: Conf, lines: seq<string>): Conf {
    conf.(passthrough := conf.passthrough + lines)
  }

  lemma WithPassStep(conf: Conf, lines: seq<string>)
    requires lines != []
    ensures WithPass(WithPass(conf, [lines[0]]), lines[1..]) == WithPass(conf, lines)
  {
  }

  /** Passthrough lines come back as they are, unless a listener is current and swallows the first keyed one. */
  lemma {:induction false} PassBack(s: State, lines: seq<string>)
    requires forall i :: 0 <= i < |lines| ==> CanonPass(lines[i])
    requires s.open && s.conf.listeners != [] ==> !FirstKeyIsSubkey(lines)
    ensures ReadLines(s, lines).conf == WithPass(s.conf, lines)
    decreases lines
  {
    if lines == [] {
      assert s.conf.passthrough + lines == s.conf.passthrough;
    } else {
      assert CanonPass(lines[0]);
      PassLineBack(s, lines[0]);
      PassBack(State(WithPass(s.conf, [lines[0]]), s.open && Classify(lines[0]).Plain?), lines[1..]);
      WithPassStep(s.conf, lines);
    }
  }

  function Solid(lines: seq<string>): seq<string> {
    if lines == [] then [] else (if Blank(lines[0]) then [] else [lines[0]]) + Solid(lines[1..])
  }

  lemma {:induction false} SolidAppend(x: seq<string>, y: seq<string>)
    ensures Solid(x + y) == Solid(x) + Solid(y)
  {
    hide Blank;
    if x == [] {
      assert x + y == y;
    } else {
      assert (x + y)[1..] == x[1..] + y;
      SolidAppend(x[1..], y);
    }
  }

  lemma SolidOne(line: string)
    ensures Solid([line]) == if Blank(line) then [] else [line]
  {
  }

  /** Reading passthrough lines again never adds to them, and loses one if a listener swallows it. */
  lemma {:induction false} PassLoses(s: State, lines: seq<string>)
    requires forall i :: 0 <= i < |lines| ==> CanonPass(lines[i])
    ensures var got := ReadLines(s, lines).conf;
            |Solid(got.passthrough)| + (if s.open && s.conf.listeners != [] && FirstKeyIsSubkey(lines) then 1 else 0)
              <= |Solid(s.conf.passthrough)| + |Solid(lines)|
    decreases lines
  {
    if lines != [] {
      assert CanonPass(lines[0]);
      PassLoses(ReadLine(s, lines[0]), lines[1..]);
      SolidAppend(s.conf.passthrough, [lines[0]]);
      SolidOne(lines[0]);
      if Classify(lines[0]).Keyed? {
        assert !Blank(lines[0]);
      }
    }
  }

  // ----- blank lines -----

  function EndBlank(prevBlank: bool, lines: seq<string>): bool {
    if lines == [] then prevBlank else Blank(lines[|lines| - 1])
  }

  lemma {:induction false} CollapseAppend(b: bool, x: seq<string>, y: seq<string>)
    ensures Collapse(b, x + y) == Collapse(b, x) + Collapse(EndBlank(b, x), y)
    decreases x
  {
    hide Blank;
    if x == [] {
      assert x + y == y;
    } else {
      assert (x + y)[1..] == x[1..] + y;
      CollapseAppend(if Blank(x[0]) && b then true else Blank(x[0]), x[1..], y);
    }
  }

  lemma {:induction false} CollapseSolid(b: bool, lines: seq<string>)
    requires forall i :: 0 <= i < |lines| ==> !Blank(lines[i])
    ensures Collapse(b, lines) == lines
    decreases lines
  {
    hide Blank;
    if lines != [] {
      CollapseSolid(false, lines[1..]);
    }
  }

  /** A block of printed lines closed by one blank line stays as it is. */
  lemma CollapseBlock(b: bool, lines: seq<string>)
    requires lines != [] && forall i :: 0 <= i < |lines| ==> !Blank(lines[i])
    ensures Collapse(b, lines + [""]) == lines + [""] && EndBlank(b, lines + [""])
  {
    CollapseAppend(b, lines, [""]);
    CollapseSolid(b, lines);
    assert [""][1..] == [];
    assert Collapse(false, [""]) == [""];
  }

  lemma {:induction false} CollapseTwice(b: bool, lines: seq<string>)
    ensures Collapse(b, Collapse(b, lines)) == Collapse(b, lines)
    decreases lines
  {
    hide Blank;
    if lines != [] {
      if Blank(lines[0]) && b {
        CollapseTwice(true, lines[1..]);
      } else {
        CollapseTwice(Blank(lines[0]), lines[1..]);
        assert Collapse(b, lines)[1..] == Collapse(Blank(lines[0]), lines[1..]);
      }
    }
  }

  lemma {:induction false} CollapseKeeps(b: bool, lines: seq<string>)
    ensures Solid(Collapse(b, lines)) == Solid(lines)
    ensures FirstKeyIsSubkey(Collapse(b, lines)) == FirstKeyIsSubkey(lines)
    ensures forall i :: 0 <= i < |Collapse(b, lines)| ==> Collapse(b, lines)[i] in lines
    ensures lines != [] && !Blank(lines[0]) ==> Collapse(b, lines) != [] && Collapse(b, lines)[0] == lines[0]
    decreases lines
  {
    hide Blank, Classify, IsSubkey;
    if lines != [] {
      if Blank(lines[0]) {
        BlankPlain(lines[0]);
      }
      CollapseKeeps(if Blank(lines[0]) && b then true else Blank(lines[0]), lines[1..]);
      if !(Blank(lines[0]) && b) {
        assert Collapse(b, lines)[1..] == Collapse(Blank(lines[0]), lines[1..]);
      }
    }
  }

  lemma BlankPlain(line: string)
    requires Blank(line)
    ensures Classify(line).Plain?
  {
  }

  lemma {:induction false} DropBlanksKeeps(lines: seq<string>)
    ensures Solid(DropBlanks(lines)) == Solid(lines)
    ensures FirstKeyIsSubkey(DropBlanks(lines)) == FirstKeyIsSubkey(lines)
    ensures DropBlanks(lines) != [] ==> !Blank(DropBlanks(lines)[0])
    ensures forall i :: 0 <= i < |DropBlanks(lines)| ==> DropBlanks(lines)[i] in lines
  {
    hide Blank, Classify, IsSubkey;
    if lines != [] && Blank(lines[0]) {
      BlankPlain(lines[0]);
      DropBlanksKeeps(lines[1..]);
    }
  }

  /** Blank lines in front of text that starts solid are dropped again. */
  lemma {:induction false} DropBlanksFront(n: nat, lines: seq<string>)
    requires lines != [] ==> !Blank(lines[0])
    ensures DropBlanks(Blanks(n) + lines) == lines
    decreases n
  {
    if n == 0 {
      assert Blanks(0) + lines == lines;
    } else {
      assert (Blanks(n) + lines)[1..] == Blanks(n - 1) + lines;
      DropBlanksFront(n - 1, lines);
    }
  }

  lemma SolidPrinted(key: Key, value: string)
    requires !key.Other? && CleanText(value)
    ensures !Blank(Line(key, value)) && '\n' !in Line(key, value)
  {
    ClassifyPrinted(key, value);
    LineHasNoBreak(key, value);
  }

  /** Lines the printer makes from keys and values: none blank, none broken. */
  predicate Printed(lines: seq<string>) {
    forall i :: 0 <= i < |lines| ==> !Blank(lines[i]) && '\n' !in lines[i]
  }

  lemma {:induction false} LinesOfPrinted(key: Key, values: seq<string>)
    requires !key.Other? && forall i :: 0 <= i < |values| ==> CleanText(values[i])
    ensures Printed(LinesOf(key, values))
  {
    if values != [] {
      SolidPrinted(key, values[0]);
      LinesOfPrinted(key, values[1..]);
    }
  }

  lemma {:induction false} ManagedPrinted(keys: seq<Key>, source: Managed)
    requires CanonManaged(source)
    ensures Printed(ManagedLines(keys, source))
  {
    if keys != [] {
      ManagedPrinted(keys[1..], source);
      if keys[0] in source {
        DistinctSame(source[keys[0]]);
        LinesOfPrinted(keys[0], source[keys[0]]);
      }
    }
  }

  lemma {:induction false} PairLinesPrinted(pairs: seq<(Key, string)>)
    requires GoodPairs(pairs)
    ensures Printed(PairLines(pairs))
  {
    if pairs != [] {
      SolidPrinted(pairs[0].0, pairs[0].1);
      PairLinesPrinted(pairs[1..]);
    }
  }

  predicate Unbroken(lines: seq<string>) {
    forall i :: 0 <= i < |lines| ==> '\n' !in lines[i]
  }

  lemma TightStep(b: bool, lines: seq<string>, rest: seq<string>)
    requires lines != [] && Printed(lines) && Collapse(true, rest) == rest && Unbroken(rest)
    ensures Collapse(b, lines + [""] + rest) == lines + [""] + rest && Unbroken(lines + [""] + rest)
  {
    CollapseBlock(b, lines);
    CollapseAppend(b, lines + [""], rest);
  }

  lemma ListenerPrinted(l: Listener, order: seq<Key>)
    requires CanonListener(l) && ListenerOrder(order)
    ensures Printed([Line(ListenerKey, Head(l))] + PairLines(Pairs(l, order)))
  {
    hide *;
    HeadBack(l);
    SolidPrinted(ListenerKey, Head(l));
    PairsBack(l, order);
    PairLinesPrinted(Pairs(l, order));
    PrintedBlock(Line(ListenerKey, Head(l)), PairLines(Pairs(l, order)));
  }

  lemma PrintedBlock(first: string, rest: seq<string>)
    requires !Blank(first) && '\n' !in first && Printed(rest)
    ensures Printed([first] + rest)
  {
  }

  /** Listener blocks hold single blank lines only. */
  lemma {:induction false} ListenersTight(b: bool, ls: seq<Listener>, order: seq<Key>)
    requires ListenerOrder(order) && forall i :: 0 <= i < |ls| ==> CanonListener(ls[i])
    ensures Collapse(b, AllListenerLines(ls, order)) == AllListenerLines(ls, order)
    ensures Unbroken(AllListenerLines(ls, order))
    decreases ls
  {
    if ls != [] {
      ListenerPrinted(ls[0], order);
      ListenersTight(true, ls[1..], order);
      TightStep(b, [Line(ListenerKey, Head(ls[0]))] + PairLines(Pairs(ls[0], order)), AllListenerLines(ls[1..], order));
    }
  }

  lemma ManagedTight(managed: Managed, order: seq<Key>)
    requires CanonManaged(managed)
    ensures Collapse(false, ManagedBlock(managed, order)) == ManagedBlock(managed, order)
    ensures Unbroken(ManagedBlock(managed, order))
  {
    var lines := ManagedLines(order, managed);
    ManagedPrinted(order, managed);
    if lines != [] {
      CollapseBlock(false, lines);
    }
  }

  lemma CollapseStart(b: bool, lines: seq<string>)
    requires lines != [] ==> !Blank(lines[0])
    ensures Collapse(b, lines) == Collapse(false, lines)
  {
  }

  /** Two tight blocks and lines that start solid: only the latter are collapsed. */
  lemma SplitBlocks(m: seq<string>, ls: seq<string>, p: seq<string>)
    requires Collapse(false, m) == m && Unbroken(m)
    requires (forall b :: Collapse(b, ls) == ls) && Unbroken(ls)
    requires (p != [] ==> !Blank(p[0])) && Unbroken(p)
    ensures Collapse(false, m + ls + p) == m + ls + Collapse(false, p) && Unbroken(m + ls + Collapse(false, p))
  {
    CollapseAppend(false, m, ls);
    CollapseAppend(false, m + ls, p);
    CollapseStart(EndBlank(false, m + ls), p);
    CollapseKeeps(false, p);
    forall i | 0 <= i < |Collapse(false, p)| ensures '\n' !in Collapse(false, p)[i] {
      assert Collapse(false, p)[i] in p;
    }
  }

  /** The managed and listener blocks are printed as they are; only the passthrough is collapsed. */
  lemma PrintedSplit(conf: Conf, order: seq<Key>, listenerOrder: seq<Key>)
    requires Canonical(conf) && ListenerOrder(listenerOrder)
    ensures PrintedLines(conf, order, listenerOrder) ==
            ManagedBlock(conf.managed, order) + AllListenerLines(conf.listeners, listenerOrder)
            + Collapse(false, DropBlanks(conf.passthrough))
    ensures Unbroken(PrintedLines(conf, order, listenerOrder))
  {
    hide CanonManaged, CanonListener, CanonPass, ListenerOrder, ManagedBlock, AllListenerLines, Collapse, DropBlanks;
    ManagedTight(conf.managed, order);
    forall b
      ensures Collapse(b, AllListenerLines(conf.listeners, listenerOrder)) ==
              AllListenerLines(conf.listeners, listenerOrder)
    {
      ListenersTight(b, conf.listeners, listenerOrder);
    }
    ListenersTight(false, conf.listeners, listenerOrder);
    DropBlanksKeeps(conf.passthrough);
    PassUnbroken(DropBlanks(conf.passthrough), conf.passthrough);
    SplitBlocks(ManagedBlock(conf.managed, order), AllListenerLines(conf.listeners, listenerOrder),
                DropBlanks(conf.passthrough));
  }

  lemma PassUnbroken(kept: seq<string>, lines: seq<string>)
    requires forall i :: 0 <= i < |lines| ==> CanonPass(lines[i])
    requires forall i :: 0 <= i < |kept| ==> kept[i] in lines
    ensures Unbroken(kept) && forall i :: 0 <= i < |kept| ==> CanonPass(kept[i])
  {
  }

  // ---------------------------------------------------------------------------
  // The round trip
  // ---------------------------------------------------------------------------

  lemma ClosedBlockBack(lines: seq<string>, managed: Managed)
    requires ReadLines(START, lines) == State(Conf(managed, [], []), false)
    ensures ReadLines(START, lines + [""]) == State(Conf(managed, [], Blanks(1)), false)
  {
    ReadLinesAppend(START, lines, [""]);
    BlankLineRead(State(Conf(managed, [], []), false));
    assert [] + [""] == Blanks(1);
  }

  lemma ManagedBlockBack(managed: Managed, order: seq<Key>) returns (k: nat)
    requires CanonManaged(managed) && ManagedOrder(order)
    ensures ReadLines(START, ManagedBlock(managed, order)) == State(Conf(managed, [], Blanks(k)), false)
  {
    ManagedBack(order, managed);
    if ManagedLines(order, managed) != [] {
      ClosedBlockBack(ManagedLines(order, managed), managed);
      k := 1;
    } else {
      assert Blanks(0) == [];
      k := 0;
    }
  }

  lemma BlocksStep(block: seq<string>, rest: seq<string>, managed: Managed, ls: seq<Listener>, k: nat)
    requires ReadLines(START, block) == State(Conf(managed, [], Blanks(k)), false)
    requires ReadLines(State(Conf(managed, [], Blanks(k)), false), rest) ==
             State(WithListeners(Conf(managed, [], Blanks(k)), ls), ls != [])
    ensures ReadLines(START, block + rest) == State(Conf(managed, ls, Blanks(k + |ls|)), ls != [])
  {
    ReadLinesAppend(START, block, rest);
    assert [] + ls == ls;
    assert Blanks(k) + Blanks(|ls|) == Blanks(k + |ls|);
  }

  /** The state in which the reader reaches the printed passthrough lines. */
  lemma BlocksBack(conf: Conf, order: seq<Key>, listenerOrder: seq<Key>) returns (n: nat)
    requires Canonical(conf) && ManagedOrder(order) && ListenerOrder(listenerOrder)
    ensures ReadLines(START, ManagedBlock(conf.managed, order) + AllListenerLines(conf.listeners, listenerOrder)) ==
            State(Conf(conf.managed, conf.listeners, Blanks(n)), conf.listeners != [])
  {
    var k := ManagedBlockBack(conf.managed, order);
    ListenersBack(State(Conf(conf.managed, [], Blanks(k)), false), conf.listeners, listenerOrder);
    BlocksStep(ManagedBlock(conf.managed, order), AllListenerLines(conf.listeners, listenerOrder),
               conf.managed, conf.listeners, k);
    n := k + |conf.listeners|;
  }

  function Reached(conf: Conf, n: nat): State {
    State(Conf(conf.managed, conf.listeners, Blanks(n)), conf.listeners != [])
  }

  /** The empty text is read as one blank line. */
  lemma EmptyBack(conf: Conf, n: nat)
    requires START == Reached(conf, n)
    ensures ReadLines(START, Split("", '\n')) == Reached(conf, 1)
  {
  }

  lemma LinesBack(conf: Conf, n: nat, blocks: seq<string>, p: seq<string>) returns (m: nat)
    requires ReadLines(START, blocks) == Reached(conf, n) && Unbroken(blocks + p)
    ensures ReadLines(START, Split(Join(blocks + p, '\n'), '\n')) == ReadLines(Reached(conf, m), p)
  {
    if blocks + p != [] {
      SplitJoin(blocks + p, '\n');
      ReadLinesAppend(START, blocks, p);
      m := n;
    } else {
      EmptyBack(conf, n);
      m := 1;
    }
  }

  /** Reading back what was printed, as far as the passthrough: blanks, then the collapsed lines read on. */
  lemma ReadBack(conf: Conf, order: seq<Key>, listenerOrder: seq<Key>) returns (n: nat)
    requires Canonical(conf) && ManagedOrder(order) && ListenerOrder(listenerOrder)
    ensures ReadLines(START, Split(Join(PrintedLines(conf, order, listenerOrder), '\n'), '\n')) ==
            ReadLines(Reached(conf, n), Collapse(false, DropBlanks(conf.passthrough)))
  {
    var k := BlocksBack(conf, order, listenerOrder);
    PrintedSplit(conf, order, listenerOrder);
    n := LinesBack(conf, k, ManagedBlock(conf.managed, order) + AllListenerLines(conf.listeners, listenerOrder),
                   Collapse(false, DropBlanks(conf.passthrough)));
  }

  /** Same managed keys, listeners and solid passthrough lines. */
  predicate SameSettings(x: Conf, y: Conf) {
    x.managed == y.managed && x.listeners == y.listeners && Solid(x.passthrough) == Solid(y.passthrough)
  }

  /** What reading the collapsed passthrough lines adds to what stands in front of them. */
  lemma PassthroughBack(conf: Conf, n: nat)
    requires forall i :: 0 <= i < |conf.passthrough| ==> CanonPass(conf.passthrough[i])
    ensures var again := ReadLines(Reached(conf, n), Collapse(false, DropBlanks(conf.passthrough))).conf;
            && (Swallows(conf) ==> !SameSettings(again, conf))
            && (!Swallows(conf) ==>
                  SameSettings(again, conf)
                  && again.passthrough == Blanks(n) + Collapse(false, DropBlanks(conf.passthrough)))
  {
    var kept := DropBlanks(conf.passthrough);
    var p := Collapse(false, kept);
    DropBlanksKeeps(conf.passthrough);
    PassUnbroken(kept, conf.passthrough);
    CollapseKeeps(false, kept);
    PassUnbroken(p, kept);
    SolidBlanks(n);
    if Swallows(conf) {
      PassLoses(Reached(conf, n), p);
    } else {
      PassBack(Reached(conf, n), p);
      SolidAppend(Blanks(n), p);
    }
  }

  /** Collapsed lines behind blanks are collapsed to themselves. */
  lemma CollapsedAgain(n: nat, lines: seq<string>)
    requires lines != [] ==> !Blank(lines[0])
    ensures Collapse(false, DropBlanks(Blanks(n) + Collapse(false, lines))) == Collapse(false, lines)
  {
    CollapseKeeps(false, lines);
    DropBlanksFront(n, Collapse(false, lines));
    CollapseTwice(false, lines);
  }

  lemma RoundTripIn(conf: Conf, order: seq<Key>, listenerOrder: seq<Key>)
    requires Canonical(conf) && ManagedOrder(order) && ListenerOrder(listenerOrder)
    ensures var again := Parse(Join(PrintedLines(conf, order, listenerOrder), '\n'));
            && (SameSettings(again, conf) <==> !Swallows(conf))
            && (!Swallows(conf) ==>
                  PrintedLines(again, order, listenerOrder) == PrintedLines(conf, order, listenerOrder))
  {
    var again := Parse(Join(PrintedLines(conf, order, listenerOrder), '\n'));
    var n := ReadBack(conf, order, listenerOrder);
    PassthroughBack(conf, n);
    if !Swallows(conf) {
      ParseCanonical(Join(PrintedLines(conf, order, listenerOrder), '\n'));
      PrintedSplit(conf, order, listenerOrder);
      PrintedSplit(again, order, listenerOrder);
      DropBlanksKeeps(conf.passthrough);
      CollapsedAgain(n, DropBlanks(conf.passthrough));
    }
  }

  /**
   * Printing a parsed file and parsing it again gives the same managed keys, listeners and solid
   * passthrough lines exactly when no listener swallows a passthrough line; then printing once
   * more gives the identical text.
   */
  lemma RoundTripExactly(raw: string)
    ensures var conf := Parse(raw);
            var again := Parse(Serialise(conf));
            && (SameSettings(again, conf) <==> !Swallows(conf))
            && (!Swallows(conf) ==> Serialise(again) == Serialise(conf))
  {
    ParseCanonical(raw);
    OrderHasPlaces();
    ListenerOrderStored();
    RoundTripIn(Parse(raw), KEY_ORDER, LISTENER_ORDER);
  }

  const SWALLOWED := "password_file x\nlistener 1"

  lemma TwoLines(s: State, first: string, second: string)
    ensures ReadLines(s, [first, second]) == ReadLine(ReadLine(s, first), second)
  {
    hide ReadLine;
    assert [first, second][1..] == [second] && [second][1..] == [];
    assert ReadLines(ReadLine(s, first), [second]) == ReadLine(ReadLine(s, first), second);
  }

  lemma SubkeyThenListener(first: string, second: string)
    requires Classify(first) == Keyed(PasswordFile, "x") && Classify(second) == Keyed(ListenerKey, "1")
    ensures Swallows(ReadLines(START, [first, second]).conf)
  {
    hide Classify, NewListener, ReadLines;
    TwoLines(START, first, second);
    var conf1 := Conf(map[], [], [first]);
    assert START.conf.passthrough + [first] == [first];
    assert ReadLine(START, first) == State(conf1, false);
    var last := ReadLine(State(conf1, false), second);
    assert last.conf.listeners == [NewListener("1")] && last.conf.passthrough == [first];
    assert ReadLines(START, [first, second]) == last;
    FirstKeyOne(first);
    assert Swallows(last.conf);
  }

  lemma FirstKeyOne(line: string)
    requires Classify(line).Keyed?
    ensures FirstKeyIsSubkey([line]) <==> IsSubkey(Classify(line).key)
  {
    hide Classify;
  }

  lemma SwallowedLines()
    ensures Split(SWALLOWED, '\n') == [Line(PasswordFile, "x"), Line(ListenerKey, "1")]
  {
    var first, second := Line(PasswordFile, "x"), Line(ListenerKey, "1");
    hide Split;
    assert first == "password_file x" && second == "listener 1";
    var lines := [first, second];
    assert Join(lines, '\n') == first + ['\n'] + second == SWALLOWED;
    SplitJoin(lines, '\n');
  }

  /** A password file in front of the first listener is read as the listener's own when it comes back. */
  lemma PassthroughSwallowed()
    ensures Swallows(Parse(SWALLOWED)) && !SameSettings(Parse(Serialise(Parse(SWALLOWED))), Parse(SWALLOWED))
  {
    hide Swallows, ReadLines, Serialise, SameSettings, Split, Line, Classify;
    var first, second := Line(PasswordFile, "x"), Line(ListenerKey, "1");
    ClassifyPrinted(PasswordFile, "x");
    ClassifyPrinted(ListenerKey, "1");
    SwallowedLines();
    SubkeyThenListener(first, second);
    assert Parse(SWALLOWED) == ReadLines(START, [first, second]).conf;
    RoundTripExactly(SWALLOWED);
  }

  lemma {:induction false} SolidBlanks(n: nat)
    ensures Solid(Blanks(n)) == []
  {
    if n > 0 {
      assert Blanks(n)[1..] == Blanks(n - 1);
      SolidBlanks(n - 1);
    }
  }
}
