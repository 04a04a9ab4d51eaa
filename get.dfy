/** Machine-dependent lookups (get.py): where the shared drive is mounted,
    the bus addresses of the instruments, and the relay server's port. */
module Get {

  /** google_drive() (lines 12-27): decided by sys.platform, then os.name,
      then the login name. */
  function GoogleDrive(platform: string, osName: string, user: string): (path: string)
  {
    if platform == "darwin" then "/Volumes/GoogleDrive"
    else if platform == "linux" then "/home/" + user + "/Documents/Google\\ Drive"
    else if osName == "nt" then
      if user == "etcto" then "D:\\Google Drive\\My Drive" else "G:\\My Drive"
    else ""
  }

  /** The decision table: the platform alone decides on macOS and Linux,
      only Windows looks at the login name, and any other system gets no
      path; the Linux path is the only one that carries the user's name. */
  lemma GoogleDriveTable(platform: string, osName: string, user: string)
    ensures platform == "darwin" ==> GoogleDrive(platform, osName, user) == "/Volumes/GoogleDrive"
    ensures platform == "linux" ==>
      GoogleDrive(platform, osName, user) == "/home/" + user + "/Documents/Google\\ Drive"
    ensures platform != "darwin" && platform != "linux" && osName == "nt" ==>
      GoogleDrive(platform, osName, user) ==
        (if user == "etcto" then "D:\\Google Drive\\My Drive" else "G:\\My Drive")
    ensures GoogleDrive(platform, osName, user) == "" <==>
      platform != "darwin" && platform != "linux" && osName != "nt"
    ensures platform != "linux" ==>
      GoogleDrive(platform, osName, user) in
        {"/Volumes/GoogleDrive", "D:\\Google Drive\\My Drive", "G:\\My Drive", ""}
  {
  }

  /** The macOS and Windows answers do not depend on who is logged in
      (apart from the one named Windows account). */
  lemma GoogleDriveIgnoresUser(platform: string, osName: string, u1: string, u2: string)
    requires platform != "linux"
    requires u1 != "etcto" && u2 != "etcto"
    ensures GoogleDrive(platform, osName, u1) == GoogleDrive(platform, osName, u2)
  {
  }

  /** gpib_address (lines 30-32) */
  const GpibAddress: map<string, nat> := map["LS" := 13, "SCOPE" := 10, "VS" := 4]

  /** port (line 34) */
  const Port: nat := 62538

  /** The table has exactly three instruments, each on its own address. */
  lemma GpibAddressTable()
    ensures GpibAddress.Keys == {"LS", "SCOPE", "VS"}
    ensures GpibAddress["LS"] == 13 && GpibAddress["SCOPE"] == 10 && GpibAddress["VS"] == 4
    ensures forall a, b :: a in GpibAddress && b in GpibAddress && a != b ==>
      GpibAddress[a] != GpibAddress[b]
  {
  }
}
