/** The managed-admin allow and deny tables and the lexical working-directory test. */
module ManagedAdminPolicy {
  import opened Texts

  const SLASH: Point := 0x2F
  const DOT_DOT: Text := [0x2E, 0x2E]

  const CAPABILITY := "host.managed_admin"

  const DEFAULT_PROGRAMS := [
    "apt-get", "apt", "dpkg", "systemctl", "journalctl", "docker", "git", "curl", "wget",
    "install", "cp", "mv", "rm", "rmdir", "mkdir", "chmod", "chown", "chgrp", "ln", "tar", "unzip",
    "ufw", "firewall-cmd", "ip", "ss", "hostnamectl", "timedatectl", "sysctl", "mount", "umount",
    "lsblk", "df", "du"
  ]

  const HARD_DENY := [
    "bash", "sh", "dash", "zsh", "fish", "sudo", "su", "pkexec", "python", "python3", "node", "perl", "ruby", "php"
  ]

  const DEFAULT_CWDS := ["/opt/wandora/ops-workspace", "/opt/wandora"]

  predicate HardDenied(program: Text) {
    exists i | 0 <= i < |HARD_DENY| :: Ascii(HARD_DENY[i]) == program
  }

  /** An absolute single-line path without a ".." segment. */
  predicate CwdWellFormed(cwd: Text) {
    cwd != [] && cwd[0] == SLASH && Units(cwd) <= 1024 && SingleLine(cwd) && DOT_DOT !in Split(cwd, SLASH)
  }

  function StripSlashes(t: Text): (r: Text)
    ensures r <= t
    ensures r != [] ==> r[|r| - 1] != SLASH
    ensures forall i | |r| <= i < |t| :: t[i] == SLASH
  {
    if t != [] && t[|t| - 1] == SLASH then StripSlashes(t[..|t| - 1]) else t
  }

  function Clean(t: Text): Text {
    if StripSlashes(t) == [] then [SLASH] else StripSlashes(t)
  }

  predicate Under(path: Text, root: Text) {
    path == root || root + [SLASH] <= path
  }

  predicate CwdLexicallyAllowed(cwd: Text, roots: seq<Text>) {
    CwdWellFormed(cwd) && exists i | 0 <= i < |roots| :: Under(Clean(cwd), Clean(roots[i]))
  }
}
