/** The installer's fixed names: the directories it creates under the base
    directory and the download host. */
module Constants {

  /** Directory of the archive cache, under the configuration directory. */
  const GoenvCacheHome: string := "downloads"

  /** Configuration directory, under the base directory. */
  const GoenvConfigHome: string := ".goenv"

  /** Directory of the extracted distributions, under the configuration directory. */
  const GolangDistributionsDir: string := "dists"

  /** Host the archives are fetched from. */
  const DownloadHostname: string := "storage.googleapis.com"
}
